/** The round engine on values: what a run does, phase by phase, for any agents and any mediator. */
module Rounds {
  import opened Order
  import opened Schemas
  import L = Ledger
  import B = Bank
  import D = Detector

  // ---------------------------------------------------------------- views and oracles

  datatype ClaimView = ClaimView(id: nat, claim: L.Claim, holders: seq<Name>)

  datatype ContestView = ContestView(id: nat, agent: Name, target: nat, round: nat, cost: nat, position: Position)

  datatype ResourceView = ResourceView(capacity: nat, group: Option<Name>, free: int)

  datatype AgentView = AgentView(
    round: nat,
    agent: Name,
    resources: map<Name, ResourceView>,
    granted: seq<ClaimView>,
    blocked: seq<ClaimView>,
    myGranted: seq<ClaimView>,
    myBlocked: seq<ClaimView>,
    openContests: seq<ContestView>,
    rulings: seq<SignedRuling>,
    balances: map<Name, nat>)

  datatype MediatorView = MediatorView(base: AgentView, positions: seq<Position>, deadlocks: seq<Deadlock>)

  /** Any agent: each call is made once per round, so a function of the view covers every behaviour of one run. */
  datatype Agent = Agent(name: Name, propose: AgentView -> seq<Proposal>, respond: AgentView -> seq<Position>)

  datatype Mediator = Mediator(
    rule: (Deadlock, seq<Position>, MediatorView) -> Ruling,
    fiat: MediatorView -> Ruling)

  type Nonce = n: Bytes | |n| == NONCE_BYTES witness seq(NONCE_BYTES, _ => 0)

  /** What a society is built with. `nonce(k)` is the nonce drawn for the k-th commitment. */
  datatype Config = Config(
    crypto: Crypto,
    agents: seq<Agent>,
    mediator: Option<Mediator>,
    resolver: Option<string -> Option<Bytes>>,
    maxRounds: nat,
    nonce: nat -> Nonce)

  const MEDIATOR: Name := "__mediator__"

  // ---------------------------------------------------------------- the state of a run

  datatype World = World(
    ledger: L.State,
    bank: B.State,
    detector: D.State,
    log: Log,
    positions: seq<(nat, Position)>,
    deadlocks: seq<Deadlock>,
    rulings: seq<SignedRuling>,
    rulingSeq: nat,
    rejections: nat)

  /** The outcome of a phase: the world it leaves, a value, and whether an exception escaped. */
  datatype Out<T> = Out(world: World, value: T, aborted: bool)

  function Say(w: World, round: nat, events: seq<Event>): World {
    w.(log := w.log + Stamp(round, events))
  }

  function OnLedger(w: World, st: L.Step, round: nat): World {
    Say(w.(ledger := st.state), round, st.events)
  }

  function OnBank(w: World, st: B.Step, round: nat): World {
    Say(w.(bank := st.state), round, st.events)
  }

  // ---------------------------------------------------------------- view builders

  function ResourcesView(s: L.State): map<Name, ResourceView> {
    map r | r in s.resources :: ResourceView(s.resources[r].capacity, s.resources[r].group, L.Free(s, r))
  }

  function ClaimsView(s: L.State, ids: seq<nat>): (v: seq<ClaimView>)
    requires forall i :: i in ids ==> i in s.claims
    ensures |v| == |ids|
    ensures forall k :: 0 <= k < |v| ==> v[k] == ClaimView(ids[k], s.claims[ids[k]], L.HolderList(s.allocs, ids[k]))
  {
    seq(|ids|, k requires 0 <= k < |ids| => ClaimView(ids[k], s.claims[ids[k]], L.HolderList(s.allocs, ids[k])))
  }

  function Mine(v: seq<ClaimView>, name: Name): (r: seq<ClaimView>)
    ensures forall c :: c in r <==> c in v && c.claim.proposal.agent == name
  {
    if v == [] then []
    else
      var rest := Mine(v[1..], name);
      assert v == [v[0]] + v[1..];
      if v[0].claim.proposal.agent == name then [v[0]] + rest else rest
  }

  predicate Shows(b: B.State, x: ContestView) {
    B.IsOpen(b, x.id) && x.agent == b.contests[x.id].agent && x.target == b.contests[x.id].target
  }

  function ContestsView(b: B.State): (v: seq<ContestView>)
    ensures |v| == |B.OpenIds(b)|
    ensures forall k :: 0 <= k < |v| ==> v[k].id == B.OpenIds(b)[k] && Shows(b, v[k])
  {
    var ids := B.OpenIds(b);
    assert forall k :: 0 <= k < |ids| ==> ids[k] in ids;
    seq(|ids|, k requires 0 <= k < |ids| =>
      var x := b.contests[ids[k]]; ContestView(ids[k], x.agent, x.target, x.round, x.cost, x.position))
  }

  function ViewFor(w: World, name: Name, round: nat): AgentView {
    var granted := ClaimsView(w.ledger, L.IdsWith(w.ledger, Granted));
    var blocked := ClaimsView(w.ledger, L.IdsWith(w.ledger, Blocked));
    AgentView(round, name, ResourcesView(w.ledger), granted, blocked, Mine(granted, name), Mine(blocked, name),
              ContestsView(w.bank), w.rulings, w.bank.balances)
  }

  function MediatorViewFor(w: World, round: nat, positions: seq<Position>, deadlocks: seq<Deadlock>): MediatorView {
    MediatorView(ViewFor(w, MEDIATOR, round), positions, deadlocks)
  }

  // ---------------------------------------------------------------- commit and reveal

  datatype Bid = Bid(agent: Name, proposal: Proposal, commitment: nat, nonce: Nonce)

  function NextBid(cfg: Config, w: World, p: Proposal): Bid {
    Bid(p.agent, p, w.ledger.commitSeq + 1, cfg.nonce(w.ledger.commitSeq + 1))
  }

  /** `seal_and_commit`. */
  function Seal(cfg: Config, w: World, p: Proposal, round: nat): World {
    var digest := CommitmentDigest(cfg.crypto, p, NextBid(cfg, w, p).nonce).value;
    OnLedger(w, L.CommitBid(w.ledger, p.agent, digest, round), round)
  }

  /** One agent's proposals, in order; a proposal under another name raises. */
  function SealAll(cfg: Config, w: World, name: Name, ps: seq<Proposal>, round: nat): Out<seq<Bid>>
    decreases |ps|
  {
    if ps == [] then Out(w, [], false)
    else if ps[0].agent != name then Out(w, [], true)
    else
      var rest := SealAll(cfg, Seal(cfg, w, ps[0], round), name, ps[1..], round);
      Out(rest.world, [NextBid(cfg, w, ps[0])] + rest.value, rest.aborted)
  }

  /** Every agent seals its new claims before any is opened. */
  function CommitPhase(cfg: Config, w: World, order: seq<Agent>, round: nat): Out<seq<Bid>>
    decreases |order|
  {
    if order == [] then Out(w, [], false)
    else
      var one := SealAll(cfg, w, order[0].name, order[0].propose(ViewFor(w, order[0].name, round)), round);
      if one.aborted then one
      else
        var rest := CommitPhase(cfg, one.world, order[1..], round);
        Out(rest.world, one.value + rest.value, rest.aborted)
  }

  function IsRejected(st: L.Step): bool {
    st.events != [] && st.events[0].RevealReject?
  }

  function Open(cfg: Config, w: World, bid: Bid, round: nat): L.Step {
    L.Reveal(w.ledger, cfg.crypto, bid.commitment, bid.proposal, bid.nonce, round)
  }

  /** The world after one bid is opened; a `LedgerError` is caught and logged. */
  function OpenOne(cfg: Config, w: World, bid: Bid, round: nat): World {
    var st := Open(cfg, w, bid, round);
    var w1 := OnLedger(w, st, round);
    if st.out == L.LedgerError then Say(w1, round, [ClaimError(bid.agent, bid.commitment)]) else w1
  }

  /** Opens the sealed bids in order, counting rejections; an `IntegrityViolation` escapes. */
  function RevealPhase(cfg: Config, w: World, bids: seq<Bid>, round: nat): Out<nat>
    decreases |bids|
  {
    if bids == [] then Out(w, 0, false)
    else
      var st := Open(cfg, w, bids[0], round);
      var w1 := OpenOne(cfg, w, bids[0], round);
      if st.out == L.IntegrityViolation then Out(w1, 0, true)
      else
        var rest := RevealPhase(cfg, w1, bids[1..], round);
        Out(rest.world, rest.value + (if st.out == L.Ok && IsRejected(st) then 1 else 0), rest.aborted)
  }

  datatype Tally = Tally(commits: nat, rejected: nat)

  function CommitReveal(cfg: Config, w: World, order: seq<Agent>, round: nat): Out<Tally> {
    var sealed := CommitPhase(cfg, w, order, round);
    if sealed.aborted then Out(sealed.world, Tally(0, 0), true)
    else
      var shown := RevealPhase(cfg, sealed.world, sealed.value, round);
      if shown.aborted then Out(shown.world, Tally(0, 0), true)
      else Out(shown.world.(rejections := shown.world.rejections + shown.value), Tally(|sealed.value|, shown.value), false)
  }

  // ---------------------------------------------------------------- positions

  function ProcessPosition(w: World, pos: Position, round: nat): Out<()> {
    if pos.target !in w.ledger.claims then Out(Say(w, round, [PositionNote(pos.agent, pos.target)]), (), false)
    else
      var target := w.ledger.claims[pos.target];
      match pos.stance
      case Block =>
        if target.proposal.agent == pos.agent then Out(Say(w, round, [PositionNote(pos.agent, pos.target)]), (), false)
        else if target.status != Granted then Out(w, (), false)
        else
          var st := B.OpenContest(w.bank, pos, round);
          Out(OnBank(w, st, round), (), st.out == B.CurrencyError)
      case Yield =>
        if target.proposal.agent != pos.agent then Out(w, (), false)
        else if target.status == Granted then
          var st := L.Release(w.ledger, pos.agent, pos.target, pos.release, round);
          Out(OnLedger(w, st, round), (), st.out != L.Ok)
        else if target.status == Blocked then
          Out(OnLedger(w, L.Withdraw(w.ledger, pos.agent, pos.target, round), round), (), false)
        else Out(w, (), false)
      case Support => Out(w, (), false)
  }

  function File(w: World, pos: Position, round: nat): World {
    Say(w, round, [PositionFiled(pos)]).(positions := w.positions + [(round, pos)])
  }

  function FileAll(w: World, name: Name, ps: seq<Position>, round: nat): Out<nat>
    decreases |ps|
  {
    if ps == [] then Out(w, 0, false)
    else if ps[0].agent != name then Out(w, 0, true)
    else
      var one := ProcessPosition(File(w, ps[0], round), ps[0], round);
      if one.aborted then Out(one.world, 0, true)
      else
        var rest := FileAll(one.world, name, ps[1..], round);
        Out(rest.world, rest.value + 1, rest.aborted)
  }

  function PositionPhase(w: World, order: seq<Agent>, round: nat): Out<nat>
    decreases |order|
  {
    if order == [] then Out(w, 0, false)
    else
      var one := FileAll(w, order[0].name, order[0].respond(ViewFor(w, order[0].name, round)), round);
      if one.aborted then one
      else
        var rest := PositionPhase(one.world, order[1..], round);
        Out(rest.world, one.value + rest.value, rest.aborted)
  }

  // ---------------------------------------------------------------- detection

  function Challenges(b: B.State): seq<D.Challenge> {
    var v := ContestsView(b);
    seq(|v|, k requires 0 <= k < |v| => D.Challenge(v[k].agent, v[k].target))
  }

  function Announce(ds: seq<Deadlock>): (e: seq<Event>)
    ensures |e| == |ds| && forall i :: 0 <= i < |e| ==> e[i] == DeadlockFound(ds[i])
  {
    seq(|ds|, i requires 0 <= i < |ds| => DeadlockFound(ds[i]))
  }

  ghost function Detect(w: World, round: nat): Out<seq<Deadlock>> {
    var f := D.Scan(w.detector, w.ledger, Challenges(w.bank), round);
    Out(Say(w, round, Announce(f.deadlocks)).(detector := f.state, deadlocks := w.deadlocks + f.deadlocks), f.deadlocks, false)
  }

  // ---------------------------------------------------------------- rulings

  datatype Resolved = Resolved(valid: seq<string>, hashes: map<string, Bytes>, dropped: seq<Event>)

  /** Keeps the citations the resolver knows, in order, and logs the others as dropped. */
  function Resolve(resolver: string -> Option<Bytes>, cs: seq<string>, ruling: nat): Resolved
    decreases |cs|
  {
    if cs == [] then Resolved([], map[], [])
    else
      var rest := Resolve(resolver, cs[1..], ruling);
      match resolver(cs[0])
      case None => rest.(dropped := [CitationDropped(ruling, cs[0])] + rest.dropped)
      case Some(h) => Resolved([cs[0]] + rest.valid, map[cs[0] := h] + rest.hashes, rest.dropped)
  }

  function ResolveAll(cfg: Config, r: RulingFields, ruling: nat): Resolved {
    if cfg.resolver.Some? then Resolve(cfg.resolver.value, r.citations, ruling) else Resolved(r.citations, map[], [])
  }

  /** The ops one by one: what raises `LedgerError` is logged as rejected, and the next op goes on. */
  function ApplyOps(w: World, ops: seq<RulingOp>, ruling: nat, round: nat): Out<()>
    decreases |ops|
  {
    if ops == [] then Out(w, (), false)
    else
      var st := L.RuleOp(w.ledger, ops[0], ruling, round);
      var w1 := OnLedger(w, st, round);
      match st.out
      case Ok => ApplyOps(w1, ops[1..], ruling, round)
      case LedgerError => ApplyOps(Say(w1, round, [OpRejected(ruling, ops[0])]), ops[1..], ruling, round)
      case IntegrityViolation => Out(w1, (), true)
  }

  function TouchedBy(r: RulingFields, dl: Option<Deadlock>): set<nat> {
    (set op | op in r.ops :: op.claim) + (if dl.Some? then Elems(dl.value.claims) else {})
  }

  /** How a ruling settles one open contest, if at all. */
  function Verdict(b: B.State, x: ContestView, r: RulingFields, touched: set<nat>): B.Step {
    if x.agent in r.winners then B.Settle(b, x.id, true)
    else if x.agent in r.losers then B.Settle(b, x.id, false)
    else if x.target in touched then B.VoidContest(b, x.id)
    else B.Step(b, [], B.Done)
  }

  function SettleAll(w: World, xs: seq<ContestView>, r: RulingFields, touched: set<nat>, round: nat): Out<()>
    decreases |xs|
  {
    if xs == [] then Out(w, (), false)
    else
      var st := Verdict(w.bank, xs[0], r, touched);
      if st.out == B.CurrencyError then Out(OnBank(w, st, round), (), true)
      else SettleAll(OnBank(w, st, round), xs[1..], r, touched, round)
  }

  function ResetAll(d: D.State, rs: seq<Name>): D.State
    decreases |rs|
  {
    if rs == [] then d else ResetAll(D.ResetResource(d, rs[0]), rs[1..])
  }

  /** A ruling is numbered, its citations resolved, and — if any is left — recorded, applied and settled. */
  function SignAndApply(cfg: Config, w0: World, r: Ruling, round: nat, dl: Option<Deadlock>): Out<()> {
    var id := w0.rulingSeq + 1;
    var w := w0.(rulingSeq := id);
    var res := ResolveAll(cfg, r, id);
    if res.valid == [] then Out(Say(Say(w, round, res.dropped), round, [RulingRejected(id, r.citations)]), (), false)
    else
      var signed := SignedRuling(id, round, r.(citations := res.valid), res.hashes);
      var w1 := Say(Say(w, round, res.dropped), round, [RulingSigned(signed)]).(rulings := w.rulings + [signed]);
      var w2 := ApplyOps(w1, r.ops, id, round);
      if w2.aborted then w2
      else
        var w3 := SettleAll(w2.world, ContestsView(w2.world.bank), r, TouchedBy(r, dl), round);
        if w3.aborted then w3
        else Out(w3.world.(detector := ResetAll(w3.world.detector, if dl.Some? then dl.value.resources else [])), (), false)
  }

  function Relevant(ps: seq<(nat, Position)>, dl: Deadlock): seq<Position>
    decreases |ps|
  {
    if ps == [] then []
    else (if ps[0].1.target in dl.claims || ps[0].1.agent in dl.agents then [ps[0].1] else []) + Relevant(ps[1..], dl)
  }

  function MediateAll(cfg: Config, m: Mediator, w: World, ds: seq<Deadlock>, round: nat): Out<()>
    decreases |ds|
  {
    if ds == [] then Out(w, (), false)
    else
      var ps := Relevant(w.positions, ds[0]);
      var ruling := m.rule(ds[0], ps, MediatorViewFor(w, round, ps, [ds[0]]));
      var one := SignAndApply(cfg, w, ruling, round, Some(ds[0]));
      if one.aborted then one else MediateAll(cfg, m, one.world, ds[1..], round)
  }

  // ---------------------------------------------------------------- rounds

  function Rotated(agents: seq<Agent>, round: nat): seq<Agent>
    requires round >= 1 && agents != []
  {
    agents[(round - 1) % |agents|..] + agents[..(round - 1) % |agents|]
  }

  function Names(agents: seq<Agent>): seq<Name> {
    seq(|agents|, i requires 0 <= i < |agents| => agents[i].name)
  }

  ghost function AfterDetect(cfg: Config, w: World, ds: seq<Deadlock>, round: nat): Out<()> {
    match cfg.mediator
    case None => Out(w, (), false)
    case Some(m) => MediateAll(cfg, m, w, ds, round)
  }

  /** One round up to and including detection. */
  ghost function UntilDetect(cfg: Config, w: World, round: nat): Out<(Tally, nat, seq<Deadlock>)>
    requires round >= 1
  {
    var none := (Tally(0, 0), 0, []);
    if cfg.agents == [] then Out(w, none, true)
    else
      var order := Rotated(cfg.agents, round);
      var cr := CommitReveal(cfg, Say(w, round, [RoundStart(Names(order))]), order, round);
      if cr.aborted then Out(cr.world, none, true)
      else
        var po := PositionPhase(cr.world, order, round);
        if po.aborted then Out(po.world, none, true)
        else
          var de := Detect(po.world, round);
          Out(de.world, (cr.value, po.value, de.value), false)
  }

  /** The closing line of a round, and whether the society is done. */
  function CloseRound(w: World, t: Tally, positions: nat, deadlocks: nat, round: nat): Out<bool> {
    var blocked, open := |L.IdsWith(w.ledger, Blocked)|, |B.OpenIds(w.bank)|;
    var w1 := Say(w, round, [RoundEnd(t.commits, t.rejected, positions, blocked, open, deadlocks)]);
    if t.commits == 0 && positions == 0 && blocked == 0 && open == 0 then Out(Say(w1, round, [Quiescent]), true, false)
    else Out(w1, false, false)
  }

  /** A whole round; the value says whether it was quiescent. */
  ghost function Round(cfg: Config, w: World, round: nat): Out<bool>
    requires round >= 1
  {
    var front := UntilDetect(cfg, w, round);
    if front.aborted then Out(front.world, false, true)
    else
      var (tally, positions, ds) := front.value;
      var med := AfterDetect(cfg, front.world, ds, round);
      if med.aborted then Out(med.world, false, true)
      else CloseRound(med.world, tally, positions, |ds|, round)
  }

  // ---------------------------------------------------------------- finalization

  function VoidContests(w: World, xs: seq<ContestView>, round: nat): Out<()>
    decreases |xs|
  {
    if xs == [] then Out(w, (), false)
    else
      var st := B.VoidContest(w.bank, xs[0].id);
      if st.out == B.CurrencyError then Out(OnBank(w, st, round), (), true)
      else VoidContests(OnBank(w, st, round), xs[1..], round)
  }

  function VoidClaims(w: World, ids: seq<nat>, round: nat): Out<()>
    decreases |ids|
  {
    if ids == [] then Out(w, (), false)
    else
      var st := L.VoidClaim(w.ledger, ids[0], round);
      if st.out != L.Ok then Out(OnLedger(w, st, round), (), true)
      else VoidClaims(OnLedger(w, st, round), ids[1..], round)
  }

  /** Without a mediator an open challenge takes its granted target down; errors of that step are swallowed. */
  function Quarantine(w: World, xs: seq<ContestView>, round: nat): Out<()>
    decreases |xs|
  {
    if xs == [] then Out(w, (), false)
    else
      var t := xs[0].target;
      var w1 := if t in w.ledger.claims && w.ledger.claims[t].status == Granted
                then OnLedger(w, L.VoidClaim(w.ledger, t, round), round) else w;
      var st := B.VoidContest(w1.bank, xs[0].id);
      if st.out == B.CurrencyError then Out(OnBank(w1, st, round), (), true)
      else Quarantine(OnBank(w1, st, round), xs[1..], round)
  }

  function AgentsOf(xs: seq<ContestView>): set<Name> {
    set x | x in xs :: x.agent
  }

  function TargetsOf(xs: seq<ContestView>): set<nat> {
    set x | x in xs :: x.target
  }

  /** The stand-in deadlock a fiat ruling answers: everything still blocked or challenged. */
  function FiatDeadlock(w: World, round: nat): Deadlock {
    var ids, xs := L.IdsWith(w.ledger, Blocked), ContestsView(w.bank);
    var claims := Elems(ids);
    Deadlock(0, Contested, round,
             L.SortedNames(set c | c in claims && c in w.ledger.claims :: w.ledger.claims[c].proposal.resource),
             L.SortedNames((set c | c in claims && c in w.ledger.claims :: w.ledger.claims[c].proposal.agent) + AgentsOf(xs)),
             D.SortedNats(claims + TargetsOf(xs)))
  }

  function AllPositions(ps: seq<(nat, Position)>): seq<Position> {
    seq(|ps|, i requires 0 <= i < |ps| => ps[i].1)
  }

  function Finalize(cfg: Config, w: World, round: nat): Out<()> {
    match cfg.mediator
    case Some(m) =>
      var dl := FiatDeadlock(w, round);
      var ruling := m.fiat(MediatorViewFor(w, round, AllPositions(w.positions), [dl]));
      var one := SignAndApply(cfg, Say(w, round, [FiatCalled]), ruling, round, Some(dl));
      if one.aborted then one
      else
        var two := VoidContests(one.world, ContestsView(one.world.bank), round);
        if two.aborted then two else VoidClaims(two.world, L.IdsWith(two.world.ledger, Blocked), round)
    case None =>
      var w1 := Say(w, round, [SafetyFinalize]);
      var one := Quarantine(w1, ContestsView(w1.bank), round);
      if one.aborted then one else VoidClaims(one.world, L.IdsWith(one.world.ledger, Blocked), round)
  }

  // ---------------------------------------------------------------- a run

  datatype Run = Returned(world: World, rounds: nat, quiescent: bool) | Aborted(world: World)

  /** The last line of every run that returns. */
  function RecordManifest(c: Crypto, w: World, rounds: nat, quiescent: bool): World {
    var m := L.ManifestNow(w.ledger);
    Say(w, rounds, [ManifestRecorded(m, ManifestHash(c, m), rounds, quiescent)])
  }

  function Finish(cfg: Config, w: World, rounds: nat, quiescent: bool): Run {
    var fin := if quiescent then Out(w, (), false) else Finalize(cfg, w, rounds);
    if fin.aborted then Aborted(fin.world) else Returned(RecordManifest(cfg.crypto, fin.world, rounds, quiescent), rounds, quiescent)
  }

  ghost function RunFrom(cfg: Config, w: World, round: nat): Run
    requires round >= 1
    decreases cfg.maxRounds + 1 - round
  {
    if round > cfg.maxRounds then Finish(cfg, w, round - 1, false)
    else
      var out := Round(cfg, w, round);
      if out.aborted then Aborted(out.world)
      else if out.value then Finish(cfg, out.world, round, true)
      else RunFrom(cfg, out.world, round + 1)
  }

  ghost function RunSociety(cfg: Config, w: World): Run {
    RunFrom(cfg, w, 1)
  }
}
