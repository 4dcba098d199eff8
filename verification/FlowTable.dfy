/** The per-connection flow table: what each operation does to the three maps.

    A `*flow` of the program is its auth id here: the counter `next` is bumped exactly once
    per allocation, so an id stands for one object for ever.  Map iteration order is an
    explicit argument wherever it can be observed.
 */
module FlowTable {
  import opened Checksum
  import opened Packet
  import opened Wrappers

  type Time = int
  type AuthId = nat
  type Bytes = seq<Byte>

  const SECOND: Time := 1_000_000_000
  const IDLE_TTL: Time := 120 * SECOND
  const AUTH_TIMEOUT: Time := 8 * SECOND
  const RETRY_DELAY: Time := 10 * SECOND
  const FRAGMENT_TTL: Time := 5 * SECOND
  const MAX_PENDING_PER_FLOW: nat := 64
  const MAX_PENDING_PACKETS: nat := 2048
  const MAX_PENDING_BYTES: nat := 2 * 1024 * 1024
  const MAX_FLOWS: nat := 8192
  const MAX_FRAGMENTS: nat := 1024

  datatype FlowState = Pending | Ready | Failed

  datatype Flow = Flow(
    key: FlowKey, appID: string, authID: AuthId, token: Bytes, state: FlowState, pending: seq<Bytes>,
    authSent: Option<Time>, authRetryAt: Option<Time>, createdAt: Time, updatedAt: Time)
  {
    function Deadline(): Time {
      if state.Pending? then
        if authRetryAt.Some? then authRetryAt.value + AUTH_TIMEOUT else createdAt + AUTH_TIMEOUT
      else updatedAt + IDLE_TTL
    }

    predicate Expired(now: Time) {
      now >= Deadline()
    }

    /** A request is due: none is outstanding, and a scheduled retry has come round. */
    predicate Due(now: Time) {
      state.Pending? && authSent.None? && (authRetryAt.None? || now >= authRetryAt.value)
    }

    /** Responses are accepted only after a request went out. */
    predicate Awaiting() {
      state.Pending? && !(authSent.None? && authRetryAt.None?)
    }
  }

  /** An incomplete datagram; key is the (immutable) key of the flow pointed at. */
  datatype Fragment = Fragment(flow: AuthId, key: FlowKey, expiresAt: Time, nextOffset: nat)

  datatype AuthFlow = AuthFlow(key: FlowKey, appID: string, authID: AuthId)

  datatype Table = Table(
    flows: map<FlowKey, AuthId>, auth: map<AuthId, Flow>, fragments: map<FragmentKey, Fragment>,
    next: nat, closed: bool)

  datatype Error =
    | TunnelClosed | FlowRejected | PendingFull | FlowTableFull
    | FragmentMissing | FragmentOrder | FragmentFull

  datatype Outcome = Rejected(error: Error) | Queued | Send(token: Bytes)

  const EMPTY := Table(map[], map[], map[], 0, false)

  // ---- Sums over the buffered packets

  function TotalLength(pkts: seq<Bytes>): nat {
    if pkts == [] then 0 else TotalLength(pkts[..|pkts| - 1]) + |pkts[|pkts| - 1]|
  }

  function PacketWeight(f: Flow): nat { |f.pending| }

  function ByteWeight(f: Flow): nat { TotalLength(f.pending) }

  function SumBelow(auth: map<AuthId, Flow>, n: nat, w: Flow -> nat): nat {
    if n == 0 then 0 else SumBelow(auth, n - 1, w) + (if n in auth then w(auth[n]) else 0)
  }

  function PendingPackets(t: Table): nat { SumBelow(t.auth, t.next, PacketWeight) }

  function PendingBytes(t: Table): nat { SumBelow(t.auth, t.next, ByteWeight) }

  // ---- Removal

  function WithoutFlows(t: Table, dead: set<AuthId>): Table {
    t.(flows := map k | k in t.flows && t.flows[k] !in dead :: t.flows[k],
       auth := t.auth - dead)
  }

  function WithoutFragmentsOf(t: Table, dead: set<AuthId>): Table {
    t.(fragments := map k | k in t.fragments && t.fragments[k].flow !in dead :: t.fragments[k])
  }

  /** removeLocked, for any set of flows at once. */
  function RemoveFlows(t: Table, dead: set<AuthId>): Table {
    WithoutFragmentsOf(WithoutFlows(t, dead), dead)
  }

  function ExpireFragments(t: Table, now: Time): Table {
    t.(fragments := map k | k in t.fragments && now < t.fragments[k].expiresAt :: t.fragments[k])
  }

  function DropFragment(t: Table, k: FragmentKey): Table {
    t.(fragments := t.fragments - {k})
  }

  function ExpiredFlows(t: Table, now: Time): set<AuthId> {
    set i | i in t.auth && t.auth[i].Expired(now)
  }

  /** The batch sweep: flows first, then one pass over the fragments. */
  function Expire(t: Table, now: Time): Table {
    var swept := WithoutFlows(t, ExpiredFlows(t, now));
    swept.(fragments := map k | k in t.fragments && now < t.fragments[k].expiresAt && Live(swept, t.fragments[k])
                          :: t.fragments[k])
  }

  /** The association's flow is still the one the table holds under its key. */
  predicate Live(t: Table, s: Fragment) {
    s.key in t.flows && t.flows[s.key] == s.flow
  }

  function Clear(t: Table): Table {
    t.(flows := map[], auth := map[], fragments := map[], closed := true)
  }

  // ---- queuePacket

  function SetFlow(t: Table, f: Flow): Table {
    t.(auth := t.auth[f.authID := f])
  }

  predicate BudgetFull(t: Table, size: nat) {
    PendingPackets(t) >= MAX_PENDING_PACKETS || PendingBytes(t) + size > MAX_PENDING_BYTES
  }

  datatype Located = Missing(table: Table, error: Error) | Found(table: Table, id: AuthId)

  /** A non-first fragment belongs to the flow its first fragment opened. */
  function LocateTail(t: Table, now: Time, p: PacketInfo): (l: Located)
    ensures l.Found? ==> l.id in l.table.auth
  {
    if p.fragment !in t.fragments then Missing(t, FragmentMissing)
    else
      var s := t.fragments[p.fragment];
      if now >= s.expiresAt || !Live(t, s) || s.flow !in t.auth
         || t.auth[s.flow].state.Failed? || t.auth[s.flow].Expired(now)
      then Missing(DropFragment(t, p.fragment), FragmentMissing)
      else if p.offset != s.nextOffset then Missing(DropFragment(t, p.fragment), FragmentOrder)
      else Found(t, s.flow)
  }

  function FreshFlow(t: Table, now: Time, key: FlowKey, appID: string): Flow {
    Flow(key, appID, t.next + 1, [], Pending, [], None, None, now, now)
  }

  function NewFlow(t: Table, now: Time, key: FlowKey, appID: string): Table {
    var f := FreshFlow(t, now, key, appID);
    t.(flows := t.flows[key := f.authID], auth := t.auth[f.authID := f], next := f.authID)
  }

  function EvictExpired(t: Table, now: Time, key: FlowKey): Table {
    if key in t.flows && t.flows[key] in t.auth && t.auth[t.flows[key]].Expired(now)
    then RemoveFlows(t, {t.flows[key]}) else t
  }

  function FindOrCreate(t: Table, now: Time, key: FlowKey, appID: string, size: nat): (l: Located)
    ensures l.Found? ==> l.id in l.table.auth
  {
    var t := EvictExpired(t, now, key);
    if key in t.flows && t.flows[key] in t.auth then Found(t, t.flows[key])
    else if |t.flows| >= MAX_FLOWS then Missing(t, FlowTableFull)
    else if BudgetFull(t, size) then Missing(t, PendingFull)
    else Found(NewFlow(t, now, key, appID), t.next + 1)
  }

  function LocateFirst(t: Table, now: Time, p: PacketInfo, appID: string, size: nat): (l: Located)
    ensures l.Found? ==> l.id in l.table.auth
  {
    if !p.more then FindOrCreate(t, now, p.key, appID, size)
    else
      var dropped := DropFragment(t, p.fragment);
      if p.fragment in t.fragments && now < t.fragments[p.fragment].expiresAt then Missing(dropped, FragmentOrder)
      else
        var swept := ExpireFragments(dropped, now);
        if |swept.fragments| >= MAX_FRAGMENTS then Missing(swept, FragmentFull)
        else FindOrCreate(swept, now, p.key, appID, size)
  }

  function Locate(t: Table, now: Time, p: PacketInfo, appID: string, size: nat): (l: Located)
    ensures l.Found? ==> l.id in l.table.auth
  {
    if p.offset != 0 then LocateTail(t, now, p) else LocateFirst(t, now, p, appID, size)
  }

  /** Progress of the datagram the packet is part of. */
  function Track(t: Table, now: Time, p: PacketInfo, f: Flow): Table {
    if p.more then
      if p.offset == 0 then
        t.(fragments := t.fragments[p.fragment := Fragment(f.authID, f.key, now + FRAGMENT_TTL, p.payloadBytes)])
      else if p.fragment in t.fragments then
        t.(fragments := t.fragments[p.fragment :=
             t.fragments[p.fragment].(nextOffset := p.offset + p.payloadBytes)])
      else t
    else if p.offset != 0 then DropFragment(t, p.fragment)
    else t
  }

  /** What happens to a packet once its flow is known. */
  function Admit(t: Table, now: Time, p: PacketInfo, id: AuthId, pkt: Bytes): (Table, Outcome)
    requires id in t.auth
  {
    var f := t.auth[id].(updatedAt := now);
    match f.state
    case Failed => (DropFragment(SetFlow(t, f), p.fragment), Rejected(FlowRejected))
    case Pending =>
      if |f.pending| >= MAX_PENDING_PER_FLOW || BudgetFull(t, |pkt|) then
        (DropFragment(SetFlow(t, f), p.fragment), Rejected(PendingFull))
      else
        (Track(SetFlow(t, f.(pending := f.pending + [pkt])), now, p, f), Queued)
    case Ready => (Track(SetFlow(t, f), now, p, f), Send(f.token))
  }

  function QueuePacket(t: Table, now: Time, p: PacketInfo, appID: string, pkt: Bytes): (Table, Outcome) {
    if t.closed then (t, Rejected(TunnelClosed))
    else
      match Locate(t, now, p, appID, |pkt|)
      case Missing(t', e) => (t', Rejected(e))
      case Found(t', id) => Admit(t', now, p, id, pkt)
  }

  // ---- Authentication

  /** One visit of the pendingAuth scan. */
  function Visit(t: Table, now: Time, key: FlowKey): (Table, Option<AuthFlow>) {
    if key !in t.flows || t.flows[key] !in t.auth then (t, None)
    else
      var f := t.auth[t.flows[key]];
      if f.Expired(now) then (RemoveFlows(t, {f.authID}), None)
      else if f.Due(now) then (SetFlow(t, f.(authSent := Some(now))), Some(AuthFlow(f.key, f.appID, f.authID)))
      else (t, None)
  }

  /** The scan over the flows in some order, stopping once `limit` requests are collected. */
  function PendingAuth(t: Table, now: Time, limit: nat, order: seq<FlowKey>, out: seq<AuthFlow>)
    : (Table, seq<AuthFlow>)
    decreases |order|
  {
    if order == [] then (t, out)
    else
      var (t', due) := Visit(t, now, order[0]);
      if due.None? then PendingAuth(t', now, limit, order[1..], out)
      else
        var out' := out + [due.value];
        if |out'| == limit then (t', out') else PendingAuth(t', now, limit, order[1..], out')
  }

  function RetryAuth(t: Table, now: Time, id: AuthId): (Table, bool) {
    if id !in t.auth || !t.auth[id].Awaiting() then (t, false)
    else
      var f := t.auth[id];
      if f.Expired(now) then (RemoveFlows(t, {id}), false)
      else if f.authRetryAt.Some? then (t, f.authSent.None?)
      else (SetFlow(t, f.(authRetryAt := Some(now + RETRY_DELAY), authSent := None, updatedAt := now)), true)
  }

  predicate ValidToken(token: Bytes) {
    0 < |token| <= 255
  }

  /** A response: the packets to release, and nothing when it is late, unasked for or a refusal. */
  function CompleteAuth(t: Table, now: Time, id: AuthId, token: Bytes, granted: bool): (Table, seq<Bytes>) {
    if id !in t.auth || !t.auth[id].Awaiting() then (t, [])
    else
      var f := t.auth[id];
      if f.Expired(now) then (RemoveFlows(t, {id}), [])
      else
        var done := f.(pending := [], updatedAt := now);
        if !granted || !ValidToken(token) then
          (WithoutFragmentsOf(SetFlow(t, done.(state := Failed)), {id}), [])
        else (SetFlow(t, done.(state := Ready, token := token)), f.pending)
  }
}
