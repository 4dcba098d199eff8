/** The lock-free binding between tunnel and bearer: a pointer replaced by compare-and-swap.

    Any number of registrations and removals run at once.  The binding is proved to be what
    the completed changes give when applied one after another, in the order in which their
    swaps succeeded, so none is lost and none is applied twice.
 */
module Endpoint {
  import opened Wrappers

  datatype Side = Uplink | Downlink

  /** Registrations have identities: a removal names the registration it removes. */
  datatype Change = Set(side: Side, id: nat) | Drop(side: Side, id: nat)

  datatype Binding = Binding(uplink: Option<nat>, downlink: Option<nat>) {
    function Get(side: Side): Option<nat> {
      if side.Uplink? then uplink else downlink
    }
  }

  const UNBOUND := Binding(None, None)

  function Bind(b: Binding, side: Side, to: Option<nat>): Binding {
    if side.Uplink? then b.(uplink := to) else b.(downlink := to)
  }

  function Changed(b: Binding, c: Change): Binding {
    match c
    case Set(side, id) => Bind(b, side, Some(id))
    case Drop(side, id) => if b.Get(side) == Some(id) then Bind(b, side, None) else b
  }

  function Fold(changes: seq<Change>): Binding {
    if changes == [] then UNBOUND
    else Changed(Fold(changes[..|changes| - 1]), changes[|changes| - 1])
  }

  // ---- The update loop

  type Call = nat

  /** Where one call of update stands; a load remembers how many changes came before it. */
  datatype Progress = Called | Loaded(seen: nat, after: nat) | Returned

  /** Each store allocates a new binding, so a pointer stands for one value for ever. */
  datatype State = State(
    pointer: nat, heap: map<nat, Binding>, calls: map<Call, Progress>, change: map<Call, Change>,
    /** The calls whose swap succeeded, in order. */
    order: seq<Call>)

  const START := State(0, map[0 := UNBOUND], map[], map[], [])

  datatype Step = Invoke(call: Call, what: Change) | Load(call: Call) | Swap(call: Call, next: nat)

  predicate Enabled(st: State, step: Step) {
    match step
    case Invoke(c, _) => c !in st.calls && c !in st.change
    case Load(c) => c in st.calls && st.calls[c].Called?
    case Swap(c, next) =>
      && c in st.calls && st.calls[c].Loaded? && st.calls[c].seen in st.heap && c in st.change && next !in st.heap
  }

  function Apply(st: State, step: Step): State
    requires Enabled(st, step)
  {
    match step
    case Invoke(c, what) => st.(calls := st.calls[c := Called], change := st.change[c := what])
    case Load(c) => st.(calls := st.calls[c := Loaded(st.pointer, |st.order|)])
    case Swap(c, next) =>
      if st.calls[c].seen != st.pointer then st.(calls := st.calls[c := Called])
      else
        st.(pointer := next, heap := st.heap[next := Changed(st.heap[st.calls[c].seen], st.change[c])],
            calls := st.calls[c := Returned], order := st.order + [c])
  }

  function Exec(steps: seq<Step>): Option<State>
    decreases |steps|
  {
    if steps == [] then Some(START)
    else
      var before := Exec(steps[..|steps| - 1]);
      var last := steps[|steps| - 1];
      if before.None? || !Enabled(before.value, last) then None else Some(Apply(before.value, last))
  }

  /** The changes that took effect, in order. */
  function Effects(st: State): seq<Change>
    requires forall i | 0 <= i < |st.order| :: st.order[i] in st.change
  {
    seq(|st.order|, i requires 0 <= i < |st.order| => st.change[st.order[i]])
  }

  /** Each returned call took effect once. */
  predicate OrderOk(st: State) {
    && st.calls.Keys == st.change.Keys
    && (forall i | 0 <= i < |st.order| :: st.order[i] in st.change)
    && (forall c | c in st.calls :: st.calls[c].Returned? <==> c in st.order)
    && (forall i, j | 0 <= i < j < |st.order| :: st.order[i] != st.order[j])
  }

  /** What a call loaded is still there, and current unless a change came in since. */
  predicate LoadsOk(st: State) {
    && st.pointer in st.heap
    && (forall c | c in st.calls && st.calls[c].Loaded? ::
          && st.calls[c].seen in st.heap && st.calls[c].after <= |st.order|
          && (st.calls[c].after == |st.order| ==> st.calls[c].seen == st.pointer))
  }

  predicate Inv(st: State) {
    OrderOk(st) && LoadsOk(st) && st.heap[st.pointer] == Fold(Effects(st))
  }

  lemma StepKeepsOrder(st: State, step: Step)
    requires OrderOk(st) && Enabled(st, step)
    ensures OrderOk(Apply(st, step))
  {
  }

  lemma StepKeepsLoads(st: State, step: Step)
    requires LoadsOk(st) && Enabled(st, step)
    ensures LoadsOk(Apply(st, step))
  {
  }

  lemma StepKeepsFold(st: State, step: Step)
    requires Inv(st) && Enabled(st, step) && OrderOk(Apply(st, step)) && LoadsOk(Apply(st, step))
    ensures Inv(Apply(st, step))
  {
    var st' := Apply(st, step);
    if st'.order == st.order {
      assert Effects(st') == Effects(st);
    } else {
      assert Effects(st')[..|st'.order| - 1] == Effects(st);
    }
  }

  lemma StepKeepsInv(st: State, step: Step)
    requires Inv(st) && Enabled(st, step)
    ensures Inv(Apply(st, step))
  {
    hide Apply, Enabled, OrderOk, LoadsOk;
    StepKeepsOrder(st, step);
    StepKeepsLoads(st, step);
    StepKeepsFold(st, step);
  }

  /** In every interleaving the binding is the fold of the successful changes, and each call
      that returned took effect exactly once. */
  lemma {:induction false} RunLinearizes(steps: seq<Step>)
    requires Exec(steps).Some?
    ensures Inv(Exec(steps).value)
    decreases |steps|
  {
    if steps != [] {
      RunLinearizes(steps[..|steps| - 1]);
      hide Inv;
      StepKeepsInv(Exec(steps[..|steps| - 1]).value, steps[|steps| - 1]);
    }
  }

  /** A swap takes effect unless another change came in since the load, so that some call
      always gets on. */
  lemma UndisturbedSwapSucceeds(steps: seq<Step>, c: Call, next: nat)
    requires Exec(steps).Some? && Enabled(Exec(steps).value, Swap(c, next))
    ensures var st := Exec(steps).value;
            st.calls[c].after == |st.order| ==>
              var st' := Apply(st, Swap(c, next));
              st'.calls[c].Returned? && st'.order == st.order + [c] && st'.pointer == next
  {
    hide Exec;
    RunLinearizes(steps);
  }

  // ---- What the fold means

  /** The registration at k is the last one on its side and was not removed since. */
  predicate StandsFrom(changes: seq<Change>, k: nat, side: Side, id: nat) {
    && k < |changes| && changes[k] == Set(side, id)
    && forall j | k < j < |changes| :: !(changes[j].Set? && changes[j].side == side) && changes[j] != Drop(side, id)
  }

  /** A registration is in force exactly if no later one replaced it and its own removal has
      not come since; removing another registration, or the other side, does not touch it. */
  lemma {:induction false} InForce(changes: seq<Change>, side: Side, id: nat)
    ensures Fold(changes).Get(side) == Some(id) <==> exists k: nat :: StandsFrom(changes, k, side, id)
    decreases |changes|
  {
    if changes != [] {
      var before, last := changes[..|changes| - 1], changes[|changes| - 1];
      InForce(before, side, id);
      if k: nat :| StandsFrom(before, k, side, id) {
        assert !(last.Set? && last.side == side) && last != Drop(side, id) ==> StandsFrom(changes, k, side, id);
      }
      if k: nat :| StandsFrom(changes, k, side, id) {
        assert k < |before| ==> StandsFrom(before, k, side, id);
      }
      if last == Set(side, id) {
        assert StandsFrom(changes, |changes| - 1, side, id);
      }
    }
  }
}
