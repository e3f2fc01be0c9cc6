/** The ToastSileo view: an edge-triggered dispatcher that, whenever the
    `trigger` property differs from the value it saw last, builds a renderer
    options record from the current snapshot and calls exactly one of the
    renderer's five entry points, chosen by `type`. */
module ToastView {
  import opened ToastTypes

  /** The renderer's five entry points. */
  datatype EntryPoint = SuccessEntry | InfoEntry | WarningEntry | ErrorEntry | ShowEntry

  function EntryName(e: EntryPoint): string {
    match e
    case SuccessEntry => "success"
    case InfoEntry => "info"
    case WarningEntry => "warning"
    case ErrorEntry => "error"
    case ShowEntry => "show"
  }

  /** The four kinds that have an entry point of their own. */
  predicate Recognised(toastType: string) {
    toastType == "success" || toastType == "info" || toastType == "warning" || toastType == "error"
  }

  /** The description handed to the renderer as raw markup. No sanitisation
      happens here: the wrapper only marks the text as markup. */
  datatype Html = Html(markup: string)

  /** The two precompiled description style classes: opaque and distinct. */
  datatype StyleClass = DescriptionDark | DescriptionLight

  datatype Styles = Styles(description: StyleClass)

  /** The options record each entry point receives. */
  datatype Options = Options(
    title: string,
    description: Html,
    position: string,
    duration: int,
    fill: string,
    styles: Styles)

  const DarkFill: string := "#171717"
  const LightFill: string := "#E7E7E7"

  /** The theme a snapshot's `theme` string selects: only "dark" is dark. */
  function EffectiveTheme(theme: string): Theme {
    if theme == "dark" then Dark else Light
  }

  /** The theme an options record displays, read back from its fill colour. */
  function ShownTheme(o: Options): Theme {
    if o.fill == DarkFill then Dark else Light
  }

  /** Fill colour and description style select the same theme. */
  predicate ThemeCoherent(o: Options) {
    || (o.fill == DarkFill && o.styles.description == DescriptionDark)
    || (o.fill == LightFill && o.styles.description == DescriptionLight)
  }

  /** The fields of a snapshot that reach the options record. */
  predicate SameShownFields(p: Props, q: Props) {
    && p.title == q.title
    && p.description == q.description
    && p.position == q.position
    && p.duration == q.duration
    && EffectiveTheme(p.theme) == EffectiveTheme(q.theme)
  }

  /** Builds the options record from one snapshot: title, position and
      duration unchanged, the description wrapped as markup, fill and
      description style both chosen by the theme. */
  function MapOptions(p: Props): (o: Options)
    ensures o.title == p.title && o.position == p.position && o.duration == p.duration
    ensures o.description.markup == p.description
    ensures ThemeCoherent(o) && ShownTheme(o) == EffectiveTheme(p.theme)
  {
    var dark := p.theme == "dark";
    Options(
      p.title,
      Html(p.description),
      p.position,
      p.duration,
      if dark then DarkFill else LightFill,
      Styles(if dark then DescriptionDark else DescriptionLight))
  }

  /** Chooses the entry point for a `type` value: the four recognised kinds
      go to the entry point of the same name, everything else to `show`. */
  function Route(toastType: string): (e: EntryPoint)
    ensures EntryName(e) == toastType || (e == ShowEntry && !Recognised(toastType))
  {
    if toastType == "success" then SuccessEntry
    else if toastType == "info" then InfoEntry
    else if toastType == "warning" then WarningEntry
    else if toastType == "error" then ErrorEntry
    else ShowEntry
  }

  /** One call into the renderer: the entry point and the options it got. */
  datatype Dispatch = Dispatch(entry: EntryPoint, options: Options)

  /** What one firing of the view sends to the renderer. */
  function DispatchFor(p: Props): Dispatch {
    Dispatch(Route(p.toastType), MapOptions(p))
  }

  /** The dark fill and the dark style appear exactly when the theme is "dark". */
  lemma FillAndStyleByTheme(p: Props)
    ensures MapOptions(p).fill == DarkFill <==> p.theme == "dark"
    ensures MapOptions(p).fill == LightFill <==> p.theme != "dark"
    ensures MapOptions(p).styles.description == DescriptionDark <==> p.theme == "dark"
  {
  }

  /** Two snapshots give the same options exactly when they agree on title,
      description, position, duration and effective theme; `trigger` and
      `type` play no part. */
  lemma MapOptionsDeterminedByShownFields(p: Props, q: Props)
    ensures MapOptions(p) == MapOptions(q) <==> SameShownFields(p, q)
  {
    if MapOptions(p) == MapOptions(q) {
      assert ShownTheme(MapOptions(p)) == ShownTheme(MapOptions(q));
    }
  }

  /** Every declared kind reaches the entry point of its own name; `show`
      and every undeclared value reach `show`. */
  lemma RouteByDeclaredType(toastType: string)
    ensures forall t: ToastType :: EntryName(Route(t.Name())) == t.Name()
    ensures toastType == "show" || !DeclaredType(toastType) ==> Route(toastType) == ShowEntry
  {
    if !DeclaredType(toastType) {
      assert Recognised(toastType) ==> (Success.Name() == toastType || Info.Name() == toastType
                                   || Warning.Name() == toastType || Error.Name() == toastType);
    }
  }

  // ---------------------------------------------------------------------
  // The view's behaviour over a sequence of renders, as functions.
  // ---------------------------------------------------------------------

  /** The trigger value remembered after rendering `snaps`, starting from `prev`. */
  function LastTrigger(prev: bool, snaps: seq<Props>): bool {
    if snaps == [] then prev else snaps[|snaps| - 1].trigger
  }

  /** The trigger value remembered just before render `i`. */
  function Before(prev: bool, snaps: seq<Props>, i: nat): bool
    requires i <= |snaps|
  {
    if i == 0 then prev else snaps[i - 1].trigger
  }

  /** Render `i` fires: its trigger differs from the one remembered before it. */
  predicate IsEdge(prev: bool, snaps: seq<Props>, i: nat)
    requires i < |snaps|
  {
    snaps[i].trigger != Before(prev, snaps, i)
  }

  /** The renderer calls made by rendering `snaps` in order, starting with
      `prev` remembered. */
  function Dispatches(prev: bool, snaps: seq<Props>): (log: seq<Dispatch>)
    ensures |log| <= |snaps|
    decreases |snaps|
  {
    if snaps == [] then []
    else
      var init := snaps[..|snaps| - 1];
      var s := snaps[|snaps| - 1];
      Dispatches(prev, init) + (if s.trigger != LastTrigger(prev, init) then [DispatchFor(s)] else [])
  }

  /** The positions, in increasing order, of the renders that fire. */
  function Edges(prev: bool, snaps: seq<Props>): seq<nat>
    decreases |snaps|
  {
    if snaps == [] then []
    else
      var n := |snaps| - 1;
      Edges(prev, snaps[..n]) + (if snaps[n].trigger != LastTrigger(prev, snaps[..n]) then [n] else [])
  }

  /** The set of positions whose trigger differs from the one before it. */
  function EdgeSet(prev: bool, snaps: seq<Props>): set<nat> {
    set i: nat | i < |snaps| && IsEdge(prev, snaps, i)
  }

  lemma BeforeOnPrefix(prev: bool, snaps: seq<Props>, n: nat, i: nat)
    requires i <= n <= |snaps|
    ensures Before(prev, snaps[..n], i) == Before(prev, snaps, i)
  {
  }

  /** `Edges` lists exactly the firing positions, strictly increasing. */
  lemma {:induction false} EdgesAreTheFiringRenders(prev: bool, snaps: seq<Props>)
    ensures forall k :: 0 <= k < |Edges(prev, snaps)| ==>
              Edges(prev, snaps)[k] < |snaps| && IsEdge(prev, snaps, Edges(prev, snaps)[k])
    ensures forall k, j :: 0 <= k < j < |Edges(prev, snaps)| ==> Edges(prev, snaps)[k] < Edges(prev, snaps)[j]
    ensures forall i :: 0 <= i < |snaps| && IsEdge(prev, snaps, i) ==> i in Edges(prev, snaps)
    decreases |snaps|
  {
    if snaps != [] {
      var n := |snaps| - 1;
      var init := snaps[..n];
      EdgesAreTheFiringRenders(prev, init);
      var e := Edges(prev, snaps);
      var ei := Edges(prev, init);
      assert e == ei + (if snaps[n].trigger != LastTrigger(prev, init) then [n] else []);
      forall i | 0 <= i < n
        ensures IsEdge(prev, init, i) == IsEdge(prev, snaps, i)
      {
        BeforeOnPrefix(prev, snaps, n, i);
      }
      assert LastTrigger(prev, init) == Before(prev, snaps, n);
    }
  }

  /** The log holds one call per firing render, in order, each built from
      the snapshot of the render that fired. */
  lemma {:induction false} DispatchesAtEdges(prev: bool, snaps: seq<Props>)
    ensures |Dispatches(prev, snaps)| == |Edges(prev, snaps)|
    ensures forall k :: 0 <= k < |Edges(prev, snaps)| ==>
              Edges(prev, snaps)[k] < |snaps| &&
              Dispatches(prev, snaps)[k] == DispatchFor(snaps[Edges(prev, snaps)[k]])
    decreases |snaps|
  {
    if snaps != [] {
      var n := |snaps| - 1;
      var init := snaps[..n];
      DispatchesAtEdges(prev, init);
      EdgesAreTheFiringRenders(prev, init);
      var log0, edges0 := Dispatches(prev, init), Edges(prev, init);
      var fires := snaps[n].trigger != LastTrigger(prev, init);
      var log, edges := Dispatches(prev, snaps), Edges(prev, snaps);
      assert log == log0 + (if fires then [DispatchFor(snaps[n])] else []);
      assert edges == edges0 + (if fires then [n] else []);
      forall k | 0 <= k < |edges|
        ensures edges[k] < |snaps| && log[k] == DispatchFor(snaps[edges[k]])
      {
        if k < |edges0| {
          assert edges[k] == edges0[k] && log[k] == log0[k];
          assert init[edges0[k]] == snaps[edges0[k]];
        }
      }
    }
  }

  /** Extending the renders by one adds the new position to the edge set
      exactly when that render fires. */
  lemma EdgeSetStep(prev: bool, snaps: seq<Props>)
    requires snaps != []
    ensures var n := |snaps| - 1;
            EdgeSet(prev, snaps) == EdgeSet(prev, snaps[..n]) + (if IsEdge(prev, snaps, n) then {n} else {})
  {
    var n := |snaps| - 1;
    forall i: nat | i < n
      ensures IsEdge(prev, snaps[..n], i) == IsEdge(prev, snaps, i)
    {
      BeforeOnPrefix(prev, snaps, n, i);
    }
  }

  /** The number of renderer calls equals the number of renders whose
      trigger differs from the one before it. */
  lemma {:induction false} DispatchCountIsEdgeCount(prev: bool, snaps: seq<Props>)
    ensures |Dispatches(prev, snaps)| == |EdgeSet(prev, snaps)|
    decreases |snaps|
  {
    if snaps != [] {
      var n := |snaps| - 1;
      var init := snaps[..n];
      DispatchCountIsEdgeCount(prev, init);
      EdgeSetStep(prev, snaps);
      assert n !in EdgeSet(prev, init);
      assert LastTrigger(prev, init) == Before(prev, snaps, n);
    }
  }

  /** The positions 1 .. |snaps| - 1 where a trigger differs from its predecessor. */
  function AdjacentChanges(snaps: seq<Props>): set<nat> {
    set i: nat | 1 <= i < |snaps| && ChangedAt(snaps, i)
  }

  /** The trigger of render `i` differs from that of render `i - 1`. */
  predicate ChangedAt(snaps: seq<Props>, i: nat)
    requires 1 <= i < |snaps|
  {
    snaps[i].trigger != snaps[i - 1].trigger
  }

  /** Over a widget's lifetime, whose first render also sets the remembered
      trigger, the renderer is called once per adjacent change of the trigger. */
  lemma LifetimeDispatchCount(snaps: seq<Props>)
    requires snaps != []
    ensures |Dispatches(snaps[0].trigger, snaps)| == |AdjacentChanges(snaps)|
  {
    DispatchCountIsEdgeCount(snaps[0].trigger, snaps);
    assert EdgeSet(snaps[0].trigger, snaps) == AdjacentChanges(snaps);
  }

  /** Renders that repeat the remembered trigger call nothing. */
  lemma {:induction false} SteadyTriggerIsSilent(prev: bool, snaps: seq<Props>)
    requires forall i :: 0 <= i < |snaps| ==> snaps[i].trigger == prev
    ensures Dispatches(prev, snaps) == []
    decreases |snaps|
  {
    if snaps != [] {
      SteadyTriggerIsSilent(prev, snaps[..|snaps| - 1]);
    }
  }

  /** Triggers false, false, true, true, false fire at renders 2 and 4 only. */
  lemma FiveRendersFireTwice(p: Props)
    ensures var snaps := [p.(trigger := false), p.(trigger := false), p.(trigger := true),
                          p.(trigger := true), p.(trigger := false)];
            && Edges(false, snaps) == [2, 4]
            && Dispatches(false, snaps) == [DispatchFor(snaps[2]), DispatchFor(snaps[4])]
  {
    var snaps := [p.(trigger := false), p.(trigger := false), p.(trigger := true),
                  p.(trigger := true), p.(trigger := false)];
    assert !snaps[0].trigger && !snaps[1].trigger && snaps[2].trigger && snaps[3].trigger && !snaps[4].trigger;
    assert snaps[..1][..0] == [] && snaps[..2][..1] == snaps[..1];
    assert snaps[..3][..2] == snaps[..2] && snaps[..4][..3] == snaps[..3];
    assert snaps[..5] == snaps && snaps[..5][..4] == snaps[..4];
    assert Edges(false, snaps[..1]) == [] && Dispatches(false, snaps[..1]) == [];
    assert Edges(false, snaps[..2]) == [] && Dispatches(false, snaps[..2]) == [];
    assert Edges(false, snaps[..3]) == [2] && Dispatches(false, snaps[..3]) == [DispatchFor(snaps[2])];
    assert Edges(false, snaps[..4]) == [2] && Dispatches(false, snaps[..4]) == [DispatchFor(snaps[2])];
  }

  // ---------------------------------------------------------------------
  // The view as a stateful object.
  // ---------------------------------------------------------------------

  /** One mounted view. `prevTrigger` is the remembered trigger; `log` records
      every call the view has made into the renderer. */
  class Dispatcher {
    var prevTrigger: bool
    ghost var log: seq<Dispatch>

    /** Mounting: the remembered trigger starts at the first trigger seen,
        and the first render therefore never fires. */
    constructor (first: Props)
      ensures prevTrigger == first.trigger
      ensures log == []
    {
      prevTrigger := first.trigger;
      log := [];
      new;
      Render(first);
    }

    /** One render: fire when the trigger differs from the remembered one,
        then remember it. */
    method Render(s: Props)
      modifies this
      ensures prevTrigger == s.trigger
      ensures log == old(log) + Dispatches(old(prevTrigger), [s])
      ensures s.trigger == old(prevTrigger) ==> log == old(log)
      ensures s.trigger != old(prevTrigger) ==> log == old(log) + [DispatchFor(s)]
    {
      assert [s][..0] == [];
      if s.trigger != prevTrigger {
        HandleToast(s);
        prevTrigger := s.trigger;
      }
    }

    /** Builds the options and calls the entry point chosen by `type`. */
    method HandleToast(s: Props)
      modifies this`log
      ensures log == old(log) + [DispatchFor(s)]
    {
      var options := MapOptions(s);
      var entry := Route(s.toastType);
      log := log + [Dispatch(entry, options)];
    }
  }

  /** Rendering one more snapshot extends the log by that render's own
      firing, judged against the trigger remembered so far. */
  lemma DispatchesExtend(prev: bool, snaps: seq<Props>, i: nat)
    requires i < |snaps|
    ensures LastTrigger(prev, snaps[..i + 1]) == snaps[i].trigger
    ensures Dispatches(prev, snaps[..i + 1])
         == Dispatches(prev, snaps[..i]) + Dispatches(LastTrigger(prev, snaps[..i]), [snaps[i]])
  {
    assert snaps[..i + 1][..i] == snaps[..i];
    assert [snaps[i]][..0] == [];
  }

  /** The host renders the view once per property update; this applies the
      updates in order to one mounted view. */
  method RenderSequence(d: Dispatcher, snaps: seq<Props>)
    modifies d
    ensures d.prevTrigger == LastTrigger(old(d.prevTrigger), snaps)
    ensures d.log == old(d.log) + Dispatches(old(d.prevTrigger), snaps)
  {
    ghost var prev0, log0 := d.prevTrigger, d.log;
    var i := 0;
    while i < |snaps|
      invariant 0 <= i <= |snaps|
      invariant d.prevTrigger == LastTrigger(prev0, snaps[..i])
      invariant d.log == log0 + Dispatches(prev0, snaps[..i])
    {
      d.Render(snaps[i]);
      DispatchesExtend(prev0, snaps, i);
      i := i + 1;
    }
    assert snaps[..i] == snaps;
  }

  /** Mounts a view on the first snapshot and renders the rest: the renderer
      is called once per adjacent change of the trigger. */
  method Lifetime(snaps: seq<Props>) returns (d: Dispatcher)
    requires snaps != []
    ensures fresh(d)
    ensures d.log == Dispatches(snaps[0].trigger, snaps)
    ensures |d.log| == |AdjacentChanges(snaps)|
    ensures d.prevTrigger == snaps[|snaps| - 1].trigger
  {
    d := new Dispatcher(snaps[0]);
    RenderSequence(d, snaps[1..]);
    DispatchesAfterMount(snaps);
    LifetimeDispatchCount(snaps);
  }

  /** The mount render never fires, so the lifetime log is the log of the
      renders after it. */
  lemma DispatchesAfterMount(snaps: seq<Props>)
    requires snaps != []
    ensures Dispatches(snaps[0].trigger, snaps) == Dispatches(snaps[0].trigger, snaps[1..])
  {
    DropSilentHead(snaps[0].trigger, snaps);
  }

  /** A first render that repeats the remembered trigger can be dropped. */
  lemma {:induction false} DropSilentHead(prev: bool, snaps: seq<Props>)
    requires snaps != [] && snaps[0].trigger == prev
    ensures Dispatches(prev, snaps) == Dispatches(prev, snaps[1..])
    decreases |snaps|
  {
    if |snaps| > 1 {
      var n := |snaps| - 1;
      DropSilentHead(prev, snaps[..n]);
      assert snaps[..n][1..] == snaps[1..][..n - 1];
      assert LastTrigger(prev, snaps[..n]) == LastTrigger(prev, snaps[1..][..n - 1]);
    }
  }
}
