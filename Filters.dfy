/**
 * The filter chain the job worker hands to the encoder
 * (app/api/process-video/route.ts, lines 93-117).
 */
module Filters {
  import opened Wrappers
  import opened Text

  /**
   * The `settings` object posted with a video. It is not validated on the
   * server, so every field may hold any value. The sliders produce whole
   * denoise steps and sharpness/contrast in steps of 0.1, so the latter two
   * are kept in tenths: `sharpness == 15` stands for 1.5.
   */
  datatype Settings = Settings(
    useAI: bool,
    denoise: int,
    sharpness: int,
    contrast: int,
    bitrate: string,
    preset: string)

  /** Contrast 1.0, in tenths: the one value for which no contrast filter is added. */
  const NeutralContrast := 10

  /** One filter directive, carrying its parameters. */
  datatype Filter =
    | Denoise(strength: int)
    | Sharpen(amount: int)
    | Contrast(level: int)
    | Upscale

  /** Position of each kind of filter in the fixed chain order. */
  function Rank(f: Filter): nat {
    match f
    case Denoise(_) => 0
    case Sharpen(_) => 1
    case Contrast(_) => 2
    case Upscale => 3
  }

  /** `f` alone when `guard` holds, nothing otherwise. */
  function When(guard: bool, f: Filter): (fs: seq<Filter>)
    ensures forall g :: g in fs <==> guard && g == f
    ensures |fs| <= 1
  {
    if guard then [f] else []
  }

  /** The filters the settings call for, each behind its own guard, in chain order. */
  function FilterList(s: Settings): seq<Filter> {
    When(s.denoise > 0, Denoise(s.denoise))
    + When(s.sharpness > 0, Sharpen(s.sharpness))
    + When(s.contrast != NeutralContrast, Contrast(s.contrast))
    + When(s.useAI, Upscale)
  }

  /** The `filters` array, built by one push per satisfied guard. */
  method BuildFilters(s: Settings) returns (filters: seq<Filter>)
    ensures filters == FilterList(s)
  {
    filters := [];
    if s.denoise > 0 {
      filters := filters + [Denoise(s.denoise)];
    }
    if s.sharpness > 0 {
      filters := filters + [Sharpen(s.sharpness)];
    }
    if s.contrast != NeutralContrast {
      filters := filters + [Contrast(s.contrast)];
    }
    if s.useAI {
      filters := filters + [Upscale];
    }
  }

  /** Each kind of filter at most once, in the order denoise, sharpen, contrast, upscale. */
  predicate InChainOrder(fs: seq<Filter>) {
    forall i, j :: 0 <= i < j < |fs| ==> Rank(fs[i]) < Rank(fs[j])
  }

  /** The guard under which the source adds `f`, with `f` carrying the setting's own value. */
  predicate Applies(f: Filter, s: Settings) {
    match f
    case Denoise(d) => s.denoise > 0 && d == s.denoise
    case Sharpen(a) => s.sharpness > 0 && a == s.sharpness
    case Contrast(c) => s.contrast != NeutralContrast && c == s.contrast
    case Upscale => s.useAI
  }

  lemma InChainOrderAppend(a: seq<Filter>, b: seq<Filter>)
    requires InChainOrder(a) && InChainOrder(b)
    requires forall x, y :: x in a && y in b ==> Rank(x) < Rank(y)
    ensures InChainOrder(a + b)
  {
    var ab := a + b;
    forall i, j | 0 <= i < j < |ab| ensures Rank(ab[i]) < Rank(ab[j]) {
      if j < |a| {
        assert ab[i] == a[i] && ab[j] == a[j];
      } else if i >= |a| {
        assert ab[i] == b[i - |a|] && ab[j] == b[j - |a|];
      } else {
        assert ab[i] in a && ab[j] in b;
      }
    }
  }

  /**
   * The filter list is a subsequence of denoise, sharpen, contrast, upscale
   * in that order, and holds exactly the filters whose guards hold.
   */
  lemma FilterListShape(s: Settings)
    ensures InChainOrder(FilterList(s))
    ensures forall f :: f in FilterList(s) <==> Applies(f, s)
  {
    var d := When(s.denoise > 0, Denoise(s.denoise));
    var h := When(s.sharpness > 0, Sharpen(s.sharpness));
    var c := When(s.contrast != NeutralContrast, Contrast(s.contrast));
    var u := When(s.useAI, Upscale);
    InChainOrderAppend(d, h);
    InChainOrderAppend(d + h, c);
    InChainOrderAppend(d + h + c, u);
  }

  /** The ffmpeg filter each directive invokes. */
  function Name(f: Filter): string {
    match f
    case Denoise(_) => "hqdn3d"
    case Sharpen(_) => "unsharp"
    case Contrast(_) => "eq"
    case Upscale => "scale"
  }

  /** The colon-separated arguments of each directive. */
  function Arguments(f: Filter): seq<string> {
    match f
    case Denoise(d) =>
      var x := IntToString(d);
      [x, x, x, x]
    case Sharpen(a) => ["5", "5", TenthsToString(a), "5", "5", "0"]
    case Contrast(c) => ["contrast=" + TenthsToString(c)]
    case Upscale => ["iw*2", "ih*2", "flags=lanczos"]
  }

  /** The directive text ffmpeg receives for one filter, `name=arg:arg:...`. */
  function Render(f: Filter): string {
    Name(f) + "=" + Join(Arguments(f), ':')
  }

  function RenderAll(fs: seq<Filter>): (rs: seq<string>)
    ensures |rs| == |fs|
    ensures forall i :: 0 <= i < |fs| ==> rs[i] == Render(fs[i])
  {
    if fs == [] then [] else [Render(fs[0])] + RenderAll(fs[1..])
  }

  /** `filters.join(",")`. */
  function Chain(fs: seq<Filter>): string {
    Join(RenderAll(fs), ',')
  }

  /** The argument of `videoFilters`; None when the call is skipped and the video passes through unfiltered. */
  function VideoFilterArgument(s: Settings): (arg: Option<string>)
    ensures arg.None? <==> FilterList(s) == []
  {
    var fs := FilterList(s);
    if |fs| > 0 then Some(Chain(fs)) else None
  }

  lemma ArgumentsAvoid(f: Filter, sep: char)
    requires sep == ',' || sep == ':'
    ensures forall k :: 0 <= k < |Arguments(f)| ==> sep !in Arguments(f)[k]
  {
    match f
    case Denoise(d) => NumbersAvoid(sep, d, 0);
    case Sharpen(a) => NumbersAvoid(sep, 0, a);
    case Contrast(c) => NumbersAvoid(sep, 0, c);
    case Upscale =>
  }

  lemma {:induction false} JoinAvoids(xs: seq<string>, sep: char, c: char)
    requires c != sep
    requires forall k :: 0 <= k < |xs| ==> c !in xs[k]
    ensures c !in Join(xs, sep)
    decreases |xs|
  {
    if |xs| > 1 {
      JoinAvoids(xs[1..], sep, c);
    }
  }

  lemma RenderHasNoComma(f: Filter)
    ensures ',' !in Render(f)
  {
    ArgumentsAvoid(f, ',');
    JoinAvoids(Arguments(f), ':', ',');
  }

  /** Splitting the chain at commas gives back the directives one by one. */
  lemma ChainSplitsIntoDirectives(fs: seq<Filter>)
    requires |fs| > 0
    ensures Split(Chain(fs), ',') == RenderAll(fs)
  {
    var rs := RenderAll(fs);
    forall k | 0 <= k < |rs| ensures ',' !in rs[k] {
      RenderHasNoComma(fs[k]);
    }
    SplitJoin(rs, ',');
  }

  /** The text after `name=` splits at colons into exactly the directive's arguments. */
  lemma RenderSplitsIntoArguments(f: Filter)
    ensures Render(f)[..|Name(f)|] == Name(f)
    ensures Split(Render(f)[|Name(f)| + 1..], ':') == Arguments(f)
  {
    assert Render(f)[|Name(f)| + 1..] == Join(Arguments(f), ':');
    ArgumentsAvoid(f, ':');
    SplitJoin(Arguments(f), ':');
  }

  /** The denoise directive carries the same value in all four of its slots. */
  lemma DenoiseArguments(d: int)
    ensures var args := Arguments(Denoise(d));
      && |args| == 4
      && args[0] == args[1] == args[2] == args[3]
      && ParseInt(args[0]) == Some(d)
  {
    IntRoundTrip(d);
  }

  /** The sharpen directive has the fixed 5x5 neighbourhood and the sharpness as its amount. */
  lemma SharpenArguments(a: int)
    ensures var args := Arguments(Sharpen(a));
      && |args| == 6
      && args[0] == args[1] == args[3] == args[4] == "5"
      && args[5] == "0"
      && ParseTenths(args[2]) == Some(a)
  {
    TenthsRoundTrip(a);
  }

  /** The contrast directive is one `contrast=` option carrying the contrast setting. */
  lemma ContrastArguments(c: int)
    ensures var args := Arguments(Contrast(c));
      && |args| == 1
      && args[0][..9] == "contrast="
      && ParseTenths(args[0][9..]) == Some(c)
  {
    assert Arguments(Contrast(c))[0][9..] == TenthsToString(c);
    TenthsRoundTrip(c);
  }

  /** Distinct filters render to distinct directives. */
  lemma RenderInjective(f: Filter, g: Filter)
    requires Render(f) == Render(g)
    ensures f == g
  {
    var r := Render(f);
    assert r[0] == Name(f)[0] && r[0] == Name(g)[0];
    assert Name(f) == Name(g);
    RenderSplitsIntoArguments(f);
    RenderSplitsIntoArguments(g);
    assert Arguments(f) == Arguments(g);
    match f
    case Denoise(d) =>
      DenoiseArguments(d);
      DenoiseArguments(g.strength);
    case Sharpen(a) =>
      SharpenArguments(a);
      SharpenArguments(g.amount);
    case Contrast(c) =>
      ContrastArguments(c);
      ContrastArguments(g.level);
    case Upscale =>
  }

  lemma {:induction false} RenderAllInjective(fs: seq<Filter>, gs: seq<Filter>)
    requires RenderAll(fs) == RenderAll(gs)
    ensures fs == gs
  {
    forall i | 0 <= i < |fs| ensures fs[i] == gs[i] {
      RenderInjective(fs[i], gs[i]);
    }
  }

  /**
   * The argument passed to `videoFilters` determines the filter list: two
   * settings that produce the same chain call for the same filters.
   */
  lemma VideoFilterArgumentDeterminesFilters(s: Settings, t: Settings)
    requires VideoFilterArgument(s) == VideoFilterArgument(t)
    ensures FilterList(s) == FilterList(t)
  {
    var fs, gs := FilterList(s), FilterList(t);
    if |fs| > 0 {
      ChainSplitsIntoDirectives(fs);
      ChainSplitsIntoDirectives(gs);
      RenderAllInjective(fs, gs);
    }
  }

  /** Neutral settings add no filter, so `videoFilters` is not called at all. */
  lemma NeutralSettingsPassThrough(bitrate: string, preset: string)
    ensures VideoFilterArgument(Settings(false, 0, 0, NeutralContrast, bitrate, preset)) == None
  {
  }

  lemma RenderedContrastExample()
    ensures Render(Contrast(20)) == "eq=contrast=2"
  {
    assert TenthsToString(20) == "2" by {
      assert NatToString(2) == "2";
    }
  }

  lemma RenderedUpscale()
    ensures Render(Upscale) == "scale=iw*2:ih*2:flags=lanczos"
  {
    JoinCons("iw*2", ["ih*2", "flags=lanczos"], ':');
  }

  lemma RenderedDenoiseExample()
    ensures Render(Denoise(4)) == "hqdn3d=4:4:4:4"
  {
    assert IntToString(4) == "4";
    JoinFour(["4", "4", "4", "4"], ':');
  }

  lemma RenderedSharpenExample()
    ensures Render(Sharpen(10)) == "unsharp=5:5:1:5:5:0"
  {
    var args := ["5", "5", "1", "5", "5", "0"];
    assert Arguments(Sharpen(10)) == args by {
      assert TenthsToString(10) == "1" by {
        assert NatToString(1) == "1";
      }
    }
    SharpenExampleJoin();
  }

  lemma SharpenExampleJoin()
    ensures Join(["5", "5", "1", "5", "5", "0"], ':') == "5:5:1:5:5:0"
  {
    var tail := ["1", "5", "5", "0"];
    JoinFour(tail, ':');
    assert Join(tail, ':') == "1:5:5:0";
    JoinCons("5", tail, ':');
    assert ["5"] + tail == ["5", "1", "5", "5", "0"];
    assert Join(["5", "1", "5", "5", "0"], ':') == "5:1:5:5:0";
    JoinCons("5", ["5", "1", "5", "5", "0"], ':');
    assert ["5"] + ["5", "1", "5", "5", "0"] == ["5", "5", "1", "5", "5", "0"];
  }

  lemma ExampleChain()
    ensures Chain([Denoise(4), Sharpen(10), Contrast(20), Upscale])
         == "hqdn3d=4:4:4:4" + "," + "unsharp=5:5:1:5:5:0" + "," + "eq=contrast=2" + ","
            + "scale=iw*2:ih*2:flags=lanczos"
  {
    var fs := [Denoise(4), Sharpen(10), Contrast(20), Upscale];
    var rs := ["hqdn3d=4:4:4:4", "unsharp=5:5:1:5:5:0", "eq=contrast=2", "scale=iw*2:ih*2:flags=lanczos"];
    assert RenderAll(fs) == rs by {
      RenderedDenoiseExample();
      RenderedSharpenExample();
      RenderedContrastExample();
      RenderedUpscale();
    }
    JoinFour(rs, ',');
  }

  /** denoise 4, sharpness 1.0, contrast 2.0 and AI on give all four directives in order. */
  lemma AllFourFilters(bitrate: string, preset: string)
    ensures var s := Settings(true, 4, 10, 20, bitrate, preset);
      && FilterList(s) == [Denoise(4), Sharpen(10), Contrast(20), Upscale]
      && VideoFilterArgument(s)
         == Some("hqdn3d=4:4:4:4" + "," + "unsharp=5:5:1:5:5:0" + "," + "eq=contrast=2" + ","
                 + "scale=iw*2:ih*2:flags=lanczos")
  {
    ExampleChain();
  }
}
