/** The two schedulers that coalesce bursts of events: the `ticking` latch of
    `handleScroll`, which keeps at most one animation-frame callback pending,
    and `debounce`, which keeps at most one timer pending and restarts it on
    every call. Time itself is not modelled: the environment's queue of frame
    callbacks and its set of live timers are fields, and the browser running a
    callback or a timer is an explicit method call. */
module Scheduling {
  import opened Basics
  import ScrollEffects
  import ActiveNav

  // ---------------------------------------------------------------------------
  // The scroll latch

  /** `ticking`, and how many frame callbacks the browser holds for the page. */
  datatype Latch = Latch(ticking: bool, pending: nat)

  const LatchStart := Latch(false, 0)

  /** At most one callback is ever pending, and while one is, the latch is up. */
  predicate LatchInv(l: Latch)
  {
    l.pending <= 1 && (l.pending == 1 ==> l.ticking)
  }

  /** The latch is up only while a callback is pending. This fails for good
      once a callback throws before it lowers the latch. */
  predicate Lowerable(l: Latch)
  {
    l.ticking ==> l.pending == 1
  }

  /** `handleScroll`: request a frame and raise the latch, unless it is up. */
  function OnScroll(l: Latch): Latch
  {
    if l.ticking then l else Latch(true, l.pending + 1)
  }

  /** The frame callback runs `netflixScrollEffects`, then `updateNavbar`,
      then `updateActiveNavLink`, then lowers the latch. `updateNavbar` does
      not check that `.navbar` exists; without it the callback throws there,
      and `ticking = false` is never reached. */
  function OnFrame(l: Latch, navbarPresent: bool): Latch
    requires l.pending > 0
  {
    Latch(!navbarPresent && l.ticking, l.pending - 1)
  }

  /** A scroll, or a frame on a page with or without a `.navbar`. */
  datatype LatchEvent = Scroll | FrameDue(navbarPresent: bool)

  function LatchStep(l: Latch, ev: LatchEvent): Latch
  {
    match ev
    case Scroll => OnScroll(l)
    case FrameDue(navbar) => if l.pending > 0 then OnFrame(l, navbar) else l
  }

  /** A sequence of scroll events and frame opportunities. A frame with no
      callback pending runs nothing. */
  function RunLatch(l: Latch, evs: seq<LatchEvent>): Latch
    decreases |evs|
  {
    if evs == [] then l else RunLatch(LatchStep(l, evs[0]), evs[1..])
  }

  /** Whatever the interleaving of scrolls and frames, at most one frame
      callback is ever pending, and the latch is up while one is. */
  lemma {:induction false} AtMostOneFramePending(l: Latch, evs: seq<LatchEvent>)
    requires LatchInv(l)
    ensures LatchInv(RunLatch(l, evs))
    decreases |evs|
  {
    if evs != [] {
      AtMostOneFramePending(LatchStep(l, evs[0]), evs[1..]);
    }
  }

  /** On a page that has a `.navbar`, the latch is up exactly while a callback
      is pending, so every frame lowers it again. */
  lemma {:induction false} LatchLowersWithNavbar(l: Latch, evs: seq<LatchEvent>)
    requires LatchInv(l) && Lowerable(l)
    requires forall i :: 0 <= i < |evs| && evs[i].FrameDue? ==> evs[i].navbarPresent
    ensures LatchInv(RunLatch(l, evs)) && Lowerable(RunLatch(l, evs))
    decreases |evs|
  {
    if evs != [] {
      LatchLowersWithNavbar(LatchStep(l, evs[0]), evs[1..]);
    }
  }

  /** Without a `.navbar` the first frame leaves the latch up with nothing
      pending, and from then on no scroll requests a frame again: the scroll
      effects run once and never after. */
  lemma {:induction false} LatchStuckWithoutNavbar(l: Latch, evs: seq<LatchEvent>)
    requires l.ticking && l.pending == 0
    ensures OnFrame(Latch(true, 1), false) == Latch(true, 0)
    ensures RunLatch(l, evs) == l
    decreases |evs|
  {
    if evs != [] {
      assert LatchStep(l, evs[0]) == l;
      LatchStuckWithoutNavbar(l, evs[1..]);
    }
  }

  /** A scroll while `ticking` schedules nothing. While the latch can still be
      lowered, any scroll leaves exactly one callback pending, so the update it
      asks for is not lost (the callback reads the scroll position when it
      runs, not when it was requested). */
  lemma ScrollIsCoalesced(l: Latch)
    requires LatchInv(l)
    ensures l.ticking ==> OnScroll(l) == l
    ensures Lowerable(l) ==> OnScroll(l).ticking && OnScroll(l).pending == 1
  {
  }

  /** A burst of scrolls, however long, requests one frame. */
  lemma {:induction false} ScrollBurstRequestsOneFrame(l: Latch, n: nat)
    requires LatchInv(l) && Lowerable(l) && n > 0
    ensures RunLatch(l, seq(n, _ => Scroll)) == Latch(true, 1)
    decreases n
  {
    var evs := seq(n, _ => Scroll);
    assert evs[0] == Scroll;
    if n > 1 {
      assert evs[1..] == seq(n - 1, _ => Scroll);
      ScrollBurstRequestsOneFrame(OnScroll(l), n - 1);
    } else {
      assert evs[1..] == [];
    }
  }

  /** What one frame callback wrote: every section's look, the progress
      percentage, and, when the callback got that far, the navbar's look and
      the current section id. */
  datatype TickOutput = TickOutput(
    looks: seq<ScrollEffects.Look>,
    progress: real,
    navbar: Option<ScrollEffects.NavbarLook>,
    current: Option<string>)

  /** The global `ticking` flag with the browser's queue of frame callbacks. */
  class ScrollLatch {
    var ticking: bool
    var pending: nat

    function State(): Latch
      reads this
    {
      Latch(ticking, pending)
    }

    ghost predicate Valid()
      reads this
    {
      LatchInv(State())
    }

    constructor ()
      ensures Valid() && State() == LatchStart
    {
      ticking, pending := false, 0;
    }

    /** `handleScroll`; `scheduled` says whether `requestAnimationFrame` was called. */
    method HandleScroll() returns (scheduled: bool)
      requires Valid()
      modifies this
      ensures Valid() && State() == OnScroll(old(State()))
      ensures scheduled == !old(ticking)
    {
      scheduled := !ticking;
      if !ticking {
        pending := pending + 1;
        ticking := true;
      }
    }

    /** The browser runs the pending callback on the page as it is at that
        frame: scroll offset, viewport and document height, section boxes, the
        `section[id]` elements, the `.nav-link` elements and whether `.navbar`
        exists. The scroll effects and progress always run; the navbar, the
        active link and lowering the latch only when `.navbar` exists. */
    method RunFrame(scrollY: real, windowHeight: real, scrollHeight: real,
                    boxes: seq<ScrollEffects.SectionBox>, navbarPresent: bool,
                    sections: seq<ActiveNav.Section>, links: seq<ActiveNav.NavLink>)
      returns (out: TickOutput)
      requires Valid() && pending > 0
      requires windowHeight > 0.0 && scrollHeight - windowHeight != 0.0
      modifies this, set l | l in links
      ensures Valid() && State() == OnFrame(old(State()), navbarPresent)
      ensures out.looks == ScrollEffects.Frame(scrollY, windowHeight, boxes)
      ensures out.progress == ScrollEffects.ScrollPercent(scrollY, scrollHeight, windowHeight)
      ensures navbarPresent ==>
        && out.navbar == Some(ScrollEffects.NavbarLookAt(scrollY))
        && out.current == Some(ActiveNav.ActiveId(sections, scrollY))
        && (forall l :: l in links ==> l.active == (l.href == ActiveNav.Fragment(out.current.value)))
        && State() == LatchStart
      ensures !navbarPresent ==>
        && out.navbar == None && out.current == None
        && (forall l :: l in links ==> l.active == old(l.active))
        && State() == Latch(true, 0)
    {
      pending := pending - 1;
      var looks := ScrollEffects.Frame(scrollY, windowHeight, boxes);
      var progress := ScrollEffects.ScrollPercent(scrollY, scrollHeight, windowHeight);
      if !navbarPresent {
        out := TickOutput(looks, progress, None, None);
        return;
      }
      var navbar := ScrollEffects.NavbarLookAt(scrollY);
      var current := ActiveNav.UpdateActiveNavLink(sections, links, scrollY);
      ticking := false;
      out := TickOutput(looks, progress, Some(navbar), Some(current));
    }
  }

  // ---------------------------------------------------------------------------
  // The debounce

  /** The closure variable `timeout` (the id of the last timer set, if any),
      the live timers with the arguments each will call `func` with, and the id
      the next `setTimeout` will return. */
  datatype Debounce<A> = Debounce(timeout: Option<nat>, timers: map<nat, A>, nextId: nat)

  function DebounceStart<A>(): Debounce<A>
  {
    Debounce(None, map[], 1)
  }

  /** Only the last timer set may still be live, and every id given out is
      below `nextId`. */
  predicate DebounceInv<A>(d: Debounce<A>)
  {
    && (d.timeout.None? ==> d.timers == map[])
    && (d.timeout.Some? ==> d.timers.Keys <= {d.timeout.value} && d.timeout.value < d.nextId)
  }

  /** `clearTimeout(id)`: a live timer is cancelled; any other id is ignored. */
  function Clear<A>(timers: map<nat, A>, id: Option<nat>): map<nat, A>
  {
    if id.Some? then timers - {id.value} else timers
  }

  /** `executedFunction(...args)`: cancel the previous timer and set a new one. */
  function Call<A>(d: Debounce<A>, args: A): Debounce<A>
  {
    Debounce(Some(d.nextId), Clear(d.timers, d.timeout)[d.nextId := args], d.nextId + 1)
  }

  /** Timer `id` fires: `later` clears `timeout` and calls `func` with the
      arguments that timer captured. */
  function Fire<A>(d: Debounce<A>, id: nat): (Debounce<A>, A)
    requires id in d.timers
  {
    (d.(timers := Clear(d.timers - {id}, d.timeout)), d.timers[id])
  }

  datatype DebounceEvent<A> = Invoke(args: A) | TimerDue(id: nat)

  /** A sequence of calls and timer expiries; a timer that is not live does
      not fire. Returns the final state and the arguments `func` ran with. */
  function RunDebounce<A>(d: Debounce<A>, evs: seq<DebounceEvent<A>>): (Debounce<A>, seq<A>)
    decreases |evs|
  {
    if evs == [] then (d, [])
    else match evs[0]
      case Invoke(args) => RunDebounce(Call(d, args), evs[1..])
      case TimerDue(id) =>
        if id in d.timers then
          var (d', a) := Fire(d, id);
          var (d'', ran) := RunDebounce(d', evs[1..]);
          (d'', [a] + ran)
        else RunDebounce(d, evs[1..])
  }

  /** After a call, exactly one timer is live and it carries that call's
      arguments; a firing timer is the one live timer and leaves none. */
  lemma DebounceStep<A>(d: Debounce<A>, args: A, id: nat)
    requires DebounceInv(d)
    ensures DebounceInv(Call(d, args))
    ensures Call(d, args).timers == map[d.nextId := args]
    ensures id in d.timers ==> d.timeout == Some(id) && DebounceInv(Fire(d, id).0)
                               && Fire(d, id).0.timers == map[]
  {
    if d.timeout.Some? {
      assert Clear(d.timers, d.timeout).Keys == {};
    }
  }

  /** Whatever the interleaving of calls and expiries, at most one timer is
      ever live, and it is the one set by the latest call. */
  lemma {:induction false} AtMostOneTimerLive<A>(d: Debounce<A>, evs: seq<DebounceEvent<A>>)
    requires DebounceInv(d)
    ensures DebounceInv(RunDebounce(d, evs).0)
    decreases |evs|
  {
    if evs != [] {
      match evs[0]
      case Invoke(args) =>
        DebounceStep(d, args, 0);
        AtMostOneTimerLive(Call(d, args), evs[1..]);
      case TimerDue(id) =>
        if id in d.timers {
          DebounceStep(d, d.timers[id], id);
          AtMostOneTimerLive(Fire(d, id).0, evs[1..]);
        } else {
          AtMostOneTimerLive(d, evs[1..]);
        }
    }
  }

  /** The calls of a burst, as events. */
  function Invokes<A>(calls: seq<A>): (evs: seq<DebounceEvent<A>>)
    ensures |evs| == |calls|
  {
    seq(|calls|, i requires 0 <= i < |calls| => Invoke(calls[i]))
  }

  lemma {:induction false} RunDebounceAppend<A>(d: Debounce<A>, a: seq<DebounceEvent<A>>, b: seq<DebounceEvent<A>>)
    ensures RunDebounce(d, a + b)
         == (RunDebounce(RunDebounce(d, a).0, b).0, RunDebounce(d, a).1 + RunDebounce(RunDebounce(d, a).0, b).1)
    decreases |a|
  {
    if a == [] {
      assert a + b == b;
      assert RunDebounce(d, a) == (d, []);
      assert [] + RunDebounce(d, b).1 == RunDebounce(d, b).1;
    } else {
      assert (a + b)[0] == a[0] && (a + b)[1..] == a[1..] + b;
      match a[0]
      case Invoke(args) =>
        RunDebounceAppend(Call(d, args), a[1..], b);
      case TimerDue(id) =>
        if id in d.timers {
          var (d', x) := Fire(d, id);
          RunDebounceAppend(d', a[1..], b);
          var (d1, r1) := RunDebounce(d', a[1..]);
          var r2 := RunDebounce(d1, b).1;
          assert ([x] + r1) + r2 == [x] + (r1 + r2);
        } else {
          RunDebounceAppend(d, a[1..], b);
        }
    }
  }

  /** A burst of calls runs nothing yet and leaves one live timer, the last
      one set, carrying the last call's arguments. */
  lemma {:induction false} BurstLeavesLastTimer<A>(d: Debounce<A>, calls: seq<A>)
    requires DebounceInv(d) && calls != []
    ensures var last := d.nextId + |calls| - 1;
            RunDebounce(d, Invokes(calls))
            == (Debounce(Some(last), map[last := calls[|calls| - 1]], last + 1), [])
    decreases |calls|
  {
    var evs := Invokes(calls);
    assert evs[0] == Invoke(calls[0]);
    DebounceStep(d, calls[0], 0);
    if |calls| == 1 {
      assert evs[1..] == [];
    } else {
      assert evs[1..] == Invokes(calls[1..]);
      BurstLeavesLastTimer(Call(d, calls[0]), calls[1..]);
    }
  }

  /** However many calls a burst holds, `func` runs once, with the arguments of
      the last call, when the last timer expires; the expiry of any earlier
      (cancelled) timer runs nothing. */
  lemma BurstRunsOnceWithLastArgs<A>(d: Debounce<A>, calls: seq<A>, id: nat)
    requires DebounceInv(d) && calls != []
    ensures var ran := RunDebounce(d, Invokes(calls) + [TimerDue(id)]).1;
            ran == if id == d.nextId + |calls| - 1 then [calls[|calls| - 1]] else []
  {
    BurstLeavesLastTimer(d, calls);
    RunDebounceAppend(d, Invokes(calls), [TimerDue(id)]);
  }

  /** The closure of `debounce(func, wait)` with the browser's live timers. */
  class Debouncer<A> {
    /** The delay handed to `setTimeout` (20 by default, 100 for resize). Time
        is not modelled, so expiry is an explicit call and this is a record. */
    const wait: nat
    var timeout: Option<nat>
    var timers: map<nat, A>
    var nextId: nat

    function State(): Debounce<A>
      reads this
    {
      Debounce(timeout, timers, nextId)
    }

    ghost predicate Valid()
      reads this
    {
      DebounceInv(State())
    }

    constructor (wait: nat)
      ensures Valid() && State() == DebounceStart() && this.wait == wait
    {
      this.wait := wait;
      timeout := None;
      timers := map[];
      nextId := 1;
    }

    /** `executedFunction(...args)`: `clearTimeout(timeout)`, then
        `timeout = setTimeout(later, wait)`. */
    method Debounced(args: A)
      requires Valid()
      modifies this
      ensures Valid() && State() == Call(old(State()), args)
      ensures timers == map[old(nextId) := args]
    {
      DebounceStep(State(), args, 0);
      if timeout.Some? {
        timers := timers - {timeout.value};
      }
      var id := nextId;
      nextId := nextId + 1;
      timers := timers[id := args];
      timeout := Some(id);
    }

    /** The browser fires live timer `id`: it is no longer live, `later` runs
        `clearTimeout(timeout)` and calls `func` with `args`. */
    method TimerFires(id: nat) returns (args: A)
      requires Valid() && id in timers
      modifies this
      ensures Valid() && (State(), args) == Fire(old(State()), id)
      ensures timers == map[] && Some(id) == timeout
    {
      DebounceStep(State(), timers[id], id);
      args := timers[id];
      timers := timers - {id};
      if timeout.Some? {
        timers := timers - {timeout.value};
      }
    }
  }
}
