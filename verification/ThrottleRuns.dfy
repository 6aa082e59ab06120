/** Whole runs of the throttle, told window by window. */
module ThrottleRuns {
  import opened Throttle
  import opened Common
  import opened Runs

  datatype Call = Call(key: Key, now: Time, answer: Answer)

  datatype Window = Window(start: Time, calls: seq<Call>)

  /** `windows` is the history: every call so far, in the window that answered it. */
  datatype State = State(t: Throttle, windows: seq<Window>)

  ghost predicate Start(s: State) {
    s == State(Created(s.t.window, s.t.limit), [Window(0, [])])
  }

  datatype Step = Allow(key: Key, now: Time)

  function Opened(s: State, now: Time): seq<Window> {
    if Over(s.t, now) then s.windows + [Window(now, [])] else s.windows
  }

  function Noted(windows: seq<Window>, call: Call): seq<Window> {
    if windows == [] then windows
    else
      var last := windows[|windows| - 1];
      windows[|windows| - 1 := last.(calls := last.calls + [call])]
  }

  function Apply(s: State, step: Step): State {
    var rolled := Rolled(s.t, step.now);
    State(Counted(rolled, step.key),
          Noted(Opened(s, step.now), Call(step.key, step.now, Ask(rolled, step.key))))
  }

  // ---------- what a window says ----------

  predicate Admitted(calls: seq<Call>, k: Key) {
    exists i :: 0 <= i < |calls| && calls[i].key == k && calls[i].answer.ok
  }

  /** Calls for `k` that were refused after it was admitted. */
  ghost function Refusals(calls: seq<Call>, k: Key): nat {
    if calls == [] then 0
    else
      var n := |calls| - 1;
      Refusals(calls[..n], k) + (if calls[n].key == k && !calls[n].answer.ok && Admitted(calls[..n], k) then 1 else 0)
  }

  function Admissions(calls: seq<Call>): nat {
    if calls == [] then 0
    else Admissions(calls[..|calls| - 1]) + (if calls[|calls| - 1].answer.ok then 1 else 0)
  }

  /** What window `i` may report about `k`: the refusals of the window before, if that one is recent. */
  ghost function Carried(window: Time, windows: seq<Window>, i: nat, k: Key): nat
    requires i < |windows|
  {
    if i > 0 && windows[i].start - windows[i - 1].start < 2 * window then Refusals(windows[i - 1].calls, k) else 0
  }

  ghost predicate OnceEach(calls: seq<Call>) {
    forall i, j :: 0 <= i < j < |calls| && calls[i].answer.ok && calls[j].answer.ok ==> calls[i].key != calls[j].key
  }

  /** Each admission reports the carried count, each refusal nothing. */
  ghost predicate Reports(window: Time, windows: seq<Window>, i: nat)
    requires i < |windows|
  {
    forall j :: 0 <= j < |windows[i].calls| ==>
      var c := windows[i].calls[j];
      c.answer.suppressed == if c.answer.ok then Carried(window, windows, i, c.key) else 0
  }

  ghost predicate WindowOk(t: Throttle, windows: seq<Window>, i: nat)
    requires i < |windows|
  {
    && OnceEach(windows[i].calls)
    && Admissions(windows[i].calls) <= Max(0, t.limit)
    && Reports(t.window, windows, i)
    && (i > 0 ==> windows[i - 1].start + t.window <= windows[i].start)
  }

  // ---------- the invariant ----------

  function Count(m: map<Key, nat>, k: Key): nat {
    if k in m then m[k] else 0
  }

  ghost predicate CountsOk(t: Throttle, w: Window) {
    && t.start == w.start
    && t.written == Admissions(w.calls)
    && (forall k :: k in t.current <==> Admitted(w.calls, k))
    && (forall k :: k in t.current ==> t.current[k] == Refusals(w.calls, k))
  }

  ghost predicate PreviousOk(t: Throttle, windows: seq<Window>)
    requires windows != []
  {
    var i := |windows| - 1;
    forall k: Key :: Count(t.previous, k) == if Admitted(windows[i].calls, k) then 0 else Carried(t.window, windows, i, k)
  }

  ghost predicate Inv(s: State) {
    && s.windows != []
    && CountsOk(s.t, s.windows[|s.windows| - 1])
    && PreviousOk(s.t, s.windows)
    && forall i: nat :: i < |s.windows| ==> WindowOk(s.t, s.windows, i)
  }

  lemma UnadmittedHasNoRefusals(calls: seq<Call>, k: Key)
    ensures !Admitted(calls, k) ==> Refusals(calls, k) == 0
  {
    if !Admitted(calls, k) && calls != [] {
      var n := |calls| - 1;
      assert forall i :: 0 <= i < n ==> calls[..n][i] == calls[i];
      UnadmittedHasNoRefusals(calls[..n], k);
    }
  }

  /** Rolling over keeps everything but the last window's calls, which are none. */
  lemma RollKeeps(s: State, now: Time)
    requires Inv(s)
    ensures Inv(State(Rolled(s.t, now), Opened(s, now)))
  {
    if Over(s.t, now) {
      var s' := State(Rolled(s.t, now), Opened(s, now));
      var n := |s.windows|;
      assert s'.windows[..n] == s.windows;
      forall k: Key ensures Count(s'.t.previous, k) == Carried(s.t.window, s'.windows, n, k) {
        UnadmittedHasNoRefusals(s.windows[n - 1].calls, k);
      }
      forall i: nat | i < n + 1 ensures WindowOk(s'.t, s'.windows, i) {
        if i < n {
          assert WindowOk(s.t, s.windows, i);
        }
      }
    }
  }

  lemma Snoc(calls: seq<Call>, c: Call, k: Key)
    ensures Admitted(calls + [c], k) <==> Admitted(calls, k) || (c.key == k && c.answer.ok)
    ensures Refusals(calls + [c], k) ==
      Refusals(calls, k) + (if c.key == k && !c.answer.ok && Admitted(calls, k) then 1 else 0)
    ensures Admissions(calls + [c]) == Admissions(calls) + (if c.answer.ok then 1 else 0)
  {
    var more := calls + [c];
    assert more[..|calls|] == calls;
    assert forall i :: 0 <= i < |calls| ==> more[i] == calls[i];
    if c.key == k && c.answer.ok {
      assert more[|calls|].key == k && more[|calls|].answer.ok;
    }
    if Admitted(calls, k) {
      var i :| 0 <= i < |calls| && calls[i].key == k && calls[i].answer.ok;
      assert more[i].key == k && more[i].answer.ok;
    }
  }

  lemma CountsKeep(t: Throttle, w: Window, key: Key, now: Time)
    requires CountsOk(t, w)
    ensures CountsOk(Counted(t, key), w.(calls := w.calls + [Call(key, now, Ask(t, key))]))
  {
    var c := Call(key, now, Ask(t, key));
    forall k ensures
      && (Admitted(w.calls + [c], k) <==> Admitted(w.calls, k) || (c.key == k && c.answer.ok))
      && Refusals(w.calls + [c], k) == Refusals(w.calls, k) + (if c.key == k && !c.answer.ok && Admitted(w.calls, k) then 1 else 0)
    {
      Snoc(w.calls, c, k);
    }
    Snoc(w.calls, c, key);
    UnadmittedHasNoRefusals(w.calls, key);
  }

  lemma PreviousKeeps(t: Throttle, windows: seq<Window>, key: Key, now: Time)
    requires windows != [] && PreviousOk(t, windows) && CountsOk(t, windows[|windows| - 1])
    ensures PreviousOk(Counted(t, key), Noted(windows, Call(key, now, Ask(t, key))))
  {
    var c := Call(key, now, Ask(t, key));
    var i := |windows| - 1;
    forall k: Key ensures Count(Counted(t, key).previous, k) ==
      if Admitted(windows[i].calls + [c], k) then 0 else Carried(t.window, windows, i, k)
    {
      assert Count(t.previous, k) == if Admitted(windows[i].calls, k) then 0 else Carried(t.window, windows, i, k);
      Snoc(windows[i].calls, c, k);
    }
  }

  lemma OnceKeeps(calls: seq<Call>, c: Call)
    requires OnceEach(calls) && (c.answer.ok ==> !Admitted(calls, c.key))
    ensures OnceEach(calls + [c])
  {
    var more := calls + [c];
    forall i, j | 0 <= i < j < |more| && more[i].answer.ok && more[j].answer.ok ensures more[i].key != more[j].key {
      assert more[i] == calls[i];
      if j == |calls| {
        assert calls[i].answer.ok;
      }
    }
  }

  lemma ReportsKeep(t: Throttle, windows: seq<Window>, key: Key, now: Time)
    requires windows != [] && Reports(t.window, windows, |windows| - 1)
    requires CountsOk(t, windows[|windows| - 1]) && PreviousOk(t, windows)
    ensures Reports(t.window, Noted(windows, Call(key, now, Ask(t, key))), |windows| - 1)
  {
    var c := Call(key, now, Ask(t, key));
    var i := |windows| - 1;
    var windows' := Noted(windows, c);
    assert Count(t.previous, key) == if Admitted(windows[i].calls, key) then 0 else Carried(t.window, windows, i, key);
    forall j | 0 <= j < |windows'[i].calls| ensures
      var d := windows'[i].calls[j];
      d.answer.suppressed == if d.answer.ok then Carried(t.window, windows', i, d.key) else 0
    {
      var d := windows'[i].calls[j];
      assert Carried(t.window, windows', i, d.key) == Carried(t.window, windows, i, d.key);
      assert j < |windows[i].calls| ==> d == windows[i].calls[j];
    }
  }

  lemma LastWindowKeeps(t: Throttle, windows: seq<Window>, key: Key, now: Time)
    requires windows != [] && WindowOk(t, windows, |windows| - 1)
    requires CountsOk(t, windows[|windows| - 1]) && PreviousOk(t, windows)
    ensures WindowOk(Counted(t, key), Noted(windows, Call(key, now, Ask(t, key))), |windows| - 1)
  {
    var c := Call(key, now, Ask(t, key));
    var n := |windows| - 1;
    var calls := windows[n].calls;
    var windows' := Noted(windows, c);
    assert Admissions(windows'[n].calls) <= Max(0, t.limit) by {
      Snoc(calls, c, key);
    }
    assert OnceEach(windows'[n].calls) by {
      OnceKeeps(calls, c);
    }
    assert Reports(t.window, windows', n) by {
      ReportsKeep(t, windows, key, now);
    }
  }

  lemma NoteKeeps(s: State, key: Key, now: Time)
    requires Inv(s)
    ensures Inv(State(Counted(s.t, key), Noted(s.windows, Call(key, now, Ask(s.t, key)))))
  {
    var s' := State(Counted(s.t, key), Noted(s.windows, Call(key, now, Ask(s.t, key))));
    var n := |s.windows| - 1;
    CountsKeep(s.t, s.windows[n], key, now);
    PreviousKeeps(s.t, s.windows, key, now);
    forall i: nat | i <= n ensures WindowOk(s'.t, s'.windows, i) {
      assert WindowOk(s.t, s.windows, i);
      if i == n {
        LastWindowKeeps(s.t, s.windows, key, now);
      } else {
        assert s'.windows[i] == s.windows[i];
        assert i > 0 ==> s'.windows[i - 1] == s.windows[i - 1];
      }
    }
  }

  lemma RunKeeps(states: seq<State>, steps: seq<Step>, i: nat)
    requires IsRun(Start, Apply, states, steps) && i < |states|
    ensures Inv(states[i])
  {
    forall s, step: Step | Inv(s) ensures Inv(Apply(s, step)) {
      RollKeeps(s, step.now);
      NoteKeeps(State(Rolled(s.t, step.now), Opened(s, step.now)), step.key, step.now);
    }
    Invariant(Start, Apply, Inv, states, steps, i);
  }

  // ---------- the theorems ----------

  /**
   Each window admits at most `limit` calls and each key once, and an admission reports
   exactly the key's refusals after its admission in the window before, when the new
   window opened within two window lengths of that one, and 0 otherwise.
   */
  lemma WindowsAreBounded(states: seq<State>, steps: seq<Step>, k: nat, i: nat)
    requires IsRun(Start, Apply, states, steps) && k < |states| && i < |states[k].windows|
    ensures Admissions(states[k].windows[i].calls) <= Max(0, states[k].t.limit)
    ensures OnceEach(states[k].windows[i].calls)
    ensures Reports(states[k].t.window, states[k].windows, i)
  {
    RunKeeps(states, steps, k);
    assert WindowOk(states[k].t, states[k].windows, i);
  }

  /** The calls of the window that answers a call: none if that call opens it. */
  function Earlier(s: State, now: Time): seq<Call>
    requires s.windows != []
  {
    var last := s.windows[|s.windows| - 1];
    if now - last.start >= s.t.window then [] else last.calls
  }

  /**
   In every run, a call is admitted exactly if its key was not yet admitted in the window that
   answers it and that window has fewer than `limit` admissions; the history notes it there,
   in a new window exactly if the last one is over.
   */
  lemma AdmittedIff(states: seq<State>, steps: seq<Step>, k: nat)
    requires IsRun(Start, Apply, states, steps) && k < |steps|
    ensures states[k].windows != [] && states[k + 1].windows != []
    ensures var s, w, w' := states[k], states[k].windows, states[k + 1].windows;
      var earlier, call := Earlier(s, steps[k].now), w'[|w'| - 1].calls;
      && |call| == |earlier| + 1 && earlier <= call
      && call[|earlier|].key == steps[k].key && call[|earlier|].now == steps[k].now
      && (call[|earlier|].answer.ok <==> !Admitted(earlier, steps[k].key) && Admissions(earlier) < s.t.limit)
      && (if steps[k].now - w[|w| - 1].start >= s.t.window
          then |w'| == |w| + 1 && w'[..|w|] == w && w'[|w|].start == steps[k].now
          else |w'| == |w| && w'[|w| - 1].start == w[|w| - 1].start)
  {
    RunKeeps(states, steps, k);
    assert Took(Apply, states, steps, k);
    RollKeeps(states[k], steps[k].now);
  }

  function Reported(calls: seq<Call>, k: Key): nat {
    if calls == [] then 0
    else
      var n := |calls| - 1;
      Reported(calls[..n], k) + (if calls[n].key == k then calls[n].answer.suppressed else 0)
  }

  ghost function ReportedIn(windows: seq<Window>, k: Key): nat {
    if windows == [] then 0 else ReportedIn(windows[..|windows| - 1], k) + Reported(windows[|windows| - 1].calls, k)
  }

  ghost function RefusedIn(windows: seq<Window>, k: Key): nat {
    if windows == [] then 0 else RefusedIn(windows[..|windows| - 1], k) + Refusals(windows[|windows| - 1].calls, k)
  }

  lemma {:induction false} ReportedAtMost(calls: seq<Call>, k: Key, most: nat)
    requires OnceEach(calls)
    requires forall j :: 0 <= j < |calls| && calls[j].key == k ==>
      calls[j].answer.suppressed == if calls[j].answer.ok then most else 0
    ensures Reported(calls, k) <= if Admitted(calls, k) then most else 0
  {
    if calls != [] {
      var n := |calls| - 1;
      ReportedAtMost(calls[..n], k, most);
      assert calls == calls[..n] + [calls[n]];
      Snoc(calls[..n], calls[n], k);
    }
  }

  /** What all windows report about a key never exceeds its refusals in the windows before the last. */
  lemma {:induction false} ReportsAddUp(t: Throttle, windows: seq<Window>, k: Key)
    requires windows != [] && forall i: nat :: i < |windows| ==> WindowOk(t, windows, i)
    ensures ReportedIn(windows, k) <= RefusedIn(windows[..|windows| - 1], k)
    decreases |windows|
  {
    var n := |windows| - 1;
    var before := windows[..n];
    assert WindowOk(t, windows, n);
    ReportedAtMost(windows[n].calls, k, Carried(t.window, windows, n, k));
    if n > 0 {
      forall i: nat | i < n ensures WindowOk(t, before, i) {
        assert WindowOk(t, windows, i);
      }
      ReportsAddUp(t, before, k);
    }
  }

  /** No refusal is reported twice. */
  lemma NoRefusalReportedTwice(states: seq<State>, steps: seq<Step>, i: nat, k: Key)
    requires IsRun(Start, Apply, states, steps) && i < |states|
    ensures ReportedIn(states[i].windows, k) <= RefusedIn(states[i].windows, k)
  {
    RunKeeps(states, steps, i);
    ReportsAddUp(states[i].t, states[i].windows, k);
  }

  // ---------- any interval of one window length ----------

  /** Time never went back: no call precedes the opening of its window or follows the next one's. */
  ghost predicate InOrder(windows: seq<Window>) {
    && (forall i, j :: 0 < i < |windows| && 0 <= j < |windows[i].calls| ==> windows[i].start <= windows[i].calls[j].now)
    && (forall i, j, m :: 0 <= i < m < |windows| && 0 <= j < |windows[i].calls| ==>
        windows[i].calls[j].now <= windows[m].start)
  }

  ghost predicate Before(windows: seq<Window>, now: Time) {
    && (forall i :: 0 < i < |windows| ==> windows[i].start <= now)
    && (forall i, j :: 0 <= i < |windows| && 0 <= j < |windows[i].calls| ==> windows[i].calls[j].now <= now)
  }

  /** Admissions at times from `from` on and before `to`. */
  function AdmittedBetween(calls: seq<Call>, from: Time, to: Time): nat {
    if calls == [] then 0
    else
      var c := calls[|calls| - 1];
      AdmittedBetween(calls[..|calls| - 1], from, to) + (if c.answer.ok && from <= c.now < to then 1 else 0)
  }

  function AllBetween(windows: seq<Window>, from: Time, to: Time): nat {
    if windows == [] then 0
    else AllBetween(windows[..|windows| - 1], from, to) + AdmittedBetween(windows[|windows| - 1].calls, from, to)
  }

  lemma {:induction false} BetweenIsBounded(calls: seq<Call>, from: Time, to: Time)
    ensures AdmittedBetween(calls, from, to) <= Admissions(calls)
    ensures (forall j :: 0 <= j < |calls| ==> !(from <= calls[j].now < to)) ==> AdmittedBetween(calls, from, to) == 0
  {
    if calls != [] {
      BetweenIsBounded(calls[..|calls| - 1], from, to);
    }
  }

  /** If the last window is reached before `from`, nothing is counted. */
  lemma {:induction false} NoneBefore(windows: seq<Window>, from: Time, to: Time)
    requires forall i, j :: 0 <= i < |windows| && 0 <= j < |windows[i].calls| ==> windows[i].calls[j].now < from
    ensures AllBetween(windows, from, to) == 0
  {
    if windows != [] {
      var n := |windows| - 1;
      BetweenIsBounded(windows[n].calls, from, to);
      NoneBefore(windows[..n], from, to);
    }
  }

  /** Once the last window has a call in the interval, only it and the one before can count. */
  lemma LastTwoCount(t: Throttle, windows: seq<Window>, from: Time, j: nat)
    requires InOrder(windows) && |windows| > 1
    requires WindowOk(t, windows, |windows| - 1) && WindowOk(t, windows, |windows| - 2)
    requires j < |windows[|windows| - 1].calls| && from <= windows[|windows| - 1].calls[j].now < from + t.window
    ensures AllBetween(windows, from, from + t.window) <= 2 * Max(0, t.limit)
  {
    var n, to := |windows| - 1, from + t.window;
    BetweenIsBounded(windows[n].calls, from, to);
    BetweenIsBounded(windows[n - 1].calls, from, to);
    assert windows[..n][..n - 1] == windows[..n - 1];
    forall i, k | 0 <= i < n - 1 && 0 <= k < |windows[i].calls|
      ensures windows[i].calls[k].now < from
    {
      assert windows[i].calls[k].now <= windows[n - 1].start;
      assert windows[n - 1].start + t.window <= windows[n].start <= windows[n].calls[j].now;
    }
    NoneBefore(windows[..n - 1], from, to);
  }

  lemma {:induction false} IntervalAdmits(t: Throttle, windows: seq<Window>, from: Time)
    requires InOrder(windows) && forall i: nat :: i < |windows| ==> WindowOk(t, windows, i)
    ensures AllBetween(windows, from, from + t.window) <= 2 * Max(0, t.limit)
    decreases |windows|
  {
    if windows != [] {
      var n, to := |windows| - 1, from + t.window;
      assert WindowOk(t, windows, n);
      BetweenIsBounded(windows[n].calls, from, to);
      if j :| n > 0 && 0 <= j < |windows[n].calls| && from <= windows[n].calls[j].now < to {
        LastTwoCount(t, windows, from, j);
      } else {
        forall i: nat | i < n ensures WindowOk(t, windows[..n], i) {
          assert WindowOk(t, windows, i);
        }
        IntervalAdmits(t, windows[..n], from);
      }
    }
  }

  lemma StepInOrder(s: State, step: Step)
    requires s.windows != [] && InOrder(s.windows) && Before(s.windows, step.now)
    ensures Apply(s, step).windows != []
    ensures InOrder(Apply(s, step).windows) && Before(Apply(s, step).windows, step.now)
  {
  }

  /** With clock readings that never decrease, every history is in order. */
  lemma {:induction false} RunInOrder(states: seq<State>, steps: seq<Step>, k: nat)
    requires IsRun(Start, Apply, states, steps) && k < |states|
    requires forall i, j :: 0 <= i < j < |steps| ==> steps[i].now <= steps[j].now
    ensures states[k].windows != [] && InOrder(states[k].windows)
    ensures k > 0 ==> Before(states[k].windows, steps[k - 1].now)
  {
    if k > 0 {
      RunInOrder(states, steps, k - 1);
      assert Took(Apply, states, steps, k - 1);
      StepInOrder(states[k - 1], steps[k - 1]);
    }
  }

  /** Any interval of one window length admits at most twice the limit. */
  lemma IntervalIsBounded(states: seq<State>, steps: seq<Step>, k: nat, from: Time)
    requires IsRun(Start, Apply, states, steps) && k < |states|
    requires forall i, j :: 0 <= i < j < |steps| ==> steps[i].now <= steps[j].now
    ensures AllBetween(states[k].windows, from, from + states[k].t.window) <= 2 * Max(0, states[k].t.limit)
  {
    RunKeeps(states, steps, k);
    RunInOrder(states, steps, k);
    IntervalAdmits(states[k].t, states[k].windows, from);
  }
}
