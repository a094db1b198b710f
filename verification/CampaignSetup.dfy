/** Creating a campaign and, for the shared kinds, registering its code in the same request: two
    chain calls under one reservation. */
module CampaignSetup {
  import opened Basics
  import opened LedgerTypes
  import opened LedgerSpec
  import opened LedgerExec
  import opened LedgerEntries
  import Meter
  import opened CreditMeter

  const MCR_CREATE: int := 20_000
  const MCR_REGISTER: int := 10_000

  /** Whether a call reaches the chain and whether its success comes back. */
  datatype Link = Link(ctx: Ctx, sent: bool, reported: bool)

  datatype SharedTerms = SharedTerms(code: string, attributedTo: Option<Address>, payoutToken: Option<Address>, rate: i128)

  datatype Setup = Setup(
    owner: Address, name: string, discountType: string, discountValue: u64, totalSupply: u32, validUntil: u64,
    shared: Option<SharedTerms>, create: Link, indexed: bool, register: Link)

  function Total(s: Setup): int { MCR_CREATE + if s.shared.Some? then MCR_REGISTER else 0 }

  /** One call: the world after it, and its value if a success came back. */
  function Try(w: World, owner: Address, link: Link, call: LedgerTypes.Call): (World, Option<Value>) {
    if !link.sent then (w, None)
    else
      var d := Exec(w, Frame(link.ctx.(signed := {owner}), call));
      (d.world, if d.reply.Ok? && link.reported then Some(d.reply.value) else None)
  }

  function CreateCall(s: Setup): LedgerTypes.Call {
    CreateCampaign(s.owner, s.name, s.discountType, s.discountValue, s.totalSupply, s.validUntil)
  }

  function RegisterCall(s: Setup, campaign: u64): LedgerTypes.Call
    requires s.shared.Some?
  {
    var t := s.shared.value;
    RegisterShared(s.owner, campaign, t.code, t.attributedTo, t.payoutToken, t.rate)
  }

  /** The world after the request, and the part of the reservation that it has used. */
  function Performed(w: World, s: Setup): (World, int) {
    var (w1, created) := Try(w, s.owner, s.create, CreateCall(s));
    if created.None? || !created.value.CampaignId? then (w1, 0)
    else if !s.indexed || s.shared.None? then (w1, MCR_CREATE)
    else
      var (w2, registered) := Try(w1, s.owner, s.register, RegisterCall(s, created.value.id));
      (w2, MCR_CREATE + if registered.Some? then MCR_REGISTER else 0)
  }

  /** The handler; the deferred CommitUsed sees the last value of `used`. */
  method Create(credits: Credits, w: World, s: Setup, live: bool, month: nat, luck: Meter.Luck, works: bool)
    returns (w': World, charged: bool)
    modifies credits
    ensures var c := Meter.Charge(old(credits.Now()), live, "create_campaign", Total(s), month, luck);
            && charged == c.ok
            && (!c.ok ==> w' == w && credits.Now() == c.account)
            && (c.ok ==>
                  && w' == Performed(w, s).0
                  && credits.Now() == Meter.Settle(c.account, Meter.Hold(live, "create_campaign", Total(s), live),
                                                   Meter.CommitUsed(Performed(w, s).1, works), month).account)
  {
    var reservation := ReserveCharge(credits, live, "create_campaign", Total(s), month, luck);
    if reservation == null { return w, false; }
    var used := 0;
    var (w1, created) := Try(w, s.owner, s.create, CreateCall(s));
    w' := w1;
    if created.Some? && created.value.CampaignId? {
      used := used + MCR_CREATE;
      if s.indexed && s.shared.Some? {
        var (w2, registered) := Try(w1, s.owner, s.register, RegisterCall(s, created.value.id));
        w' := w2;
        if registered.Some? { used := used + MCR_REGISTER; }
      }
    }
    reservation.CommitUsed(used, month, works);
    charged := true;
  }

  /** The call reaches the chain and is accepted. */
  predicate Accepted(w: World, owner: Address, link: Link, call: LedgerTypes.Call) {
    link.sent && Exec(w, Frame(link.ctx.(signed := {owner}), call)).reply.Ok?
  }

  /** One of the calls is accepted and its success does not come back. */
  predicate LosesSuccess(w: World, s: Setup) {
    && Accepted(w, s.owner, s.create, CreateCall(s))
    && (!s.create.reported
        || (var (w1, created) := Try(w, s.owner, s.create, CreateCall(s));
            && s.indexed && s.shared.Some? && created.Some? && created.value.CampaignId? && !s.register.reported
            && Accepted(w1, s.owner, s.register, RegisterCall(s, created.value.id))))
  }

  /** The price of what the chain has now and had not before. */
  function Price(w: World, w': World): int {
    MCR_CREATE * (w'.ledger.campCtr - w.ledger.campCtr) + MCR_REGISTER * (|w'.ledger.shared.Keys| - |w.ledger.shared.Keys|)
  }

  lemma TryIs(w: World, owner: Address, link: Link, call: LedgerTypes.Call)
    requires !call.Settle?
    ensures var o := Apply(w.ledger, link.ctx.(signed := {owner}), call);
            && (Accepted(w, owner, link, call) <==> link.sent && o.reply.Ok?)
            && Try(w, owner, link, call) == if !link.sent then (w, None)
                  else (World(o.state, w.transfers), if o.reply.Ok? && link.reported then Some(o.reply.value) else None)
  {
  }

  lemma CreateAdds(s: State, ctx: Ctx, c: LedgerTypes.Call)
    requires c.CreateCampaign?
    ensures var o := Apply(s, ctx, c);
            && o.state.shared == s.shared && o.state.campCtr == s.campCtr + (if o.reply.Ok? then 1 else 0)
            && (o.reply.Ok? ==> o.reply.value.CampaignId?)
  {
  }

  lemma SharedWritten(s: State, k: CodeKey, sc: SharedCode)
    ensures var t := WriteShared(s, k, sc); t.campCtr == s.campCtr && t.shared.Keys == s.shared.Keys + {k}
  {
  }

  lemma RegisterAdds(s: State, ctx: Ctx, owner: Address, campaign: u64, code: string, at: Option<Address>,
                     token: Option<Address>, rate: i128)
    ensures var o := Register(s, ctx, owner, campaign, code, at, token, rate);
            var k := CodeKey(campaign, code);
            && o.state.campCtr == s.campCtr && (o.reply.Ok? ==> k !in s.shared)
            && o.state.shared.Keys == s.shared.Keys + (if o.reply.Ok? then {k} else {})
  {
    RegistrationIff(s, ctx, owner, campaign, code, at, token, rate);
    SharedWritten(s, CodeKey(campaign, code), SharedCode(campaign, code, at, token, rate, ctx.now));
  }

  lemma CreateCounts(w: World, s: Setup)
    ensures var (w', v) := Try(w, s.owner, s.create, CreateCall(s));
            var accepted := Accepted(w, s.owner, s.create, CreateCall(s));
            && w'.ledger.shared == w.ledger.shared
            && w'.ledger.campCtr == w.ledger.campCtr + (if accepted then 1 else 0)
            && (v.Some? <==> accepted && s.create.reported) && (v.Some? ==> v.value.CampaignId?)
  {
    TryIs(w, s.owner, s.create, CreateCall(s));
    CreateAdds(w.ledger, s.create.ctx.(signed := {s.owner}), CreateCall(s));
  }

  lemma RegisterCounts(w: World, s: Setup, campaign: u64)
    requires s.shared.Some?
    ensures var (w', v) := Try(w, s.owner, s.register, RegisterCall(s, campaign));
            var accepted := Accepted(w, s.owner, s.register, RegisterCall(s, campaign));
            var k := CodeKey(campaign, s.shared.value.code);
            && w'.ledger.campCtr == w.ledger.campCtr
            && (v.Some? <==> accepted && s.register.reported)
            && (accepted ==> k !in w.ledger.shared)
            && w'.ledger.shared.Keys == w.ledger.shared.Keys + (if accepted then {k} else {})
  {
    TryIs(w, s.owner, s.register, RegisterCall(s, campaign));
    var t := s.shared.value;
    RegisterAdds(w.ledger, s.register.ctx.(signed := {s.owner}), s.owner, campaign, t.code, t.attributedTo, t.payoutToken, t.rate);
  }

  lemma KeysGrow(before: set<CodeKey>, k: CodeKey)
    ensures |before + {}| == |before| && (k !in before ==> |before + {k}| == |before| + 1)
  {
    assert before + {} == before;
  }

  /** When the refund succeeds, a request costs 20 credits for the campaign and 10 for the shared code
      that the chain now has, each only if the chain has it, exactly unless an accepted call went
      unreported; then it costs less. */
  lemma ChargedForWhatExists(w: World, s: Setup)
    ensures var (w', used) := Performed(w, s);
            && (used == Price(w, w') <==> !LosesSuccess(w, s))
            && 0 <= used <= Price(w, w') && used <= Total(s)
            && Meter.Cost(Meter.Hold(true, "create_campaign", Total(s), true), Meter.CommitUsed(used, true)) == used
  {
    CreateCounts(w, s);
    var (w1, created) := Try(w, s.owner, s.create, CreateCall(s));
    if created.Some? && s.indexed && s.shared.Some? {
      RegisterCounts(w1, s, created.value.id);
      KeysGrow(w1.ledger.shared.Keys, CodeKey(created.value.id, s.shared.value.code));
    }
  }

  /** The campaign that was asked for is on the chain under `id`. */
  ghost predicate HasCampaign(t: State, s: Setup, id: u64) {
    id in t.campaigns
    && t.campaigns[id] == Campaign(id, s.owner, s.name, s.discountType, s.discountValue, s.totalSupply, 0, 0, s.validUntil)
  }

  /** ... and so is its shared code, with the terms asked for. */
  ghost predicate HasCode(t: State, s: Setup, id: u64) {
    s.shared.Some? &&
    var k, terms := CodeKey(id, s.shared.value.code), s.shared.value;
    k in t.shared
    && t.shared[k] == SharedCode(id, terms.code, terms.attributedTo, terms.payoutToken, terms.rate, s.register.ctx.now)
  }

  lemma CreatedHas(w: World, s: Setup)
    requires Accepted(w, s.owner, s.create, CreateCall(s))
    ensures w.ledger.campCtr < U64_MAX
    ensures var (w', v) := Try(w, s.owner, s.create, CreateCall(s));
            && HasCampaign(w'.ledger, s, w.ledger.campCtr + 1)
            && v == if s.create.reported then Some(CampaignId(w.ledger.campCtr + 1)) else None
  {
    TryIs(w, s.owner, s.create, CreateCall(s));
    CreationRecords(w.ledger, s.create.ctx.(signed := {s.owner}), s.owner, s.name, s.discountType, s.discountValue, s.totalSupply, s.validUntil);
  }

  lemma RegisteredHas(w: World, s: Setup, id: u64)
    requires s.shared.Some? && Accepted(w, s.owner, s.register, RegisterCall(s, id)) && HasCampaign(w.ledger, s, id)
    ensures var (w', v) := Try(w, s.owner, s.register, RegisterCall(s, id));
            HasCampaign(w'.ledger, s, id) && HasCode(w'.ledger, s, id) && (v.Some? <==> s.register.reported)
  {
    var t := s.shared.value;
    TryIs(w, s.owner, s.register, RegisterCall(s, id));
    RegistrationIff(w.ledger, s.register.ctx.(signed := {s.owner}), s.owner, id, t.code, t.attributedTo, t.payoutToken, t.rate);
  }

  /** What is kept of the reservation, by what happened: 20 credits exactly if the creation was accepted
      and reported, 10 more exactly if the registration then was; and the chain has what was kept for,
      with the terms asked for. */
  lemma KeptForWhatWasReported(w: World, s: Setup)
    ensures var created := Accepted(w, s.owner, s.create, CreateCall(s)) && s.create.reported;
            var (w1, _) := Try(w, s.owner, s.create, CreateCall(s));
            var registers := created && s.indexed && s.shared.Some?;
            && (created ==> w.ledger.campCtr < U64_MAX)
            && var id: u64 := if created then w.ledger.campCtr + 1 else 0;
            && var registered := registers && Accepted(w1, s.owner, s.register, RegisterCall(s, id)) && s.register.reported;
            && var (w', used) := Performed(w, s);
            && used == (if created then 20_000 else 0) + (if registered then 10_000 else 0)
            && (created && !registers ==> HasCampaign(w'.ledger, s, id))
            && (registered ==> HasCampaign(w'.ledger, s, id) && HasCode(w'.ledger, s, id))
  {
    TryIs(w, s.owner, s.create, CreateCall(s));
    if Accepted(w, s.owner, s.create, CreateCall(s)) && s.create.reported {
      var (w1, _) := Try(w, s.owner, s.create, CreateCall(s));
      var id := w.ledger.campCtr + 1;
      CreatedHas(w, s);
      if s.indexed && s.shared.Some? {
        TryIs(w1, s.owner, s.register, RegisterCall(s, id));
        if Accepted(w1, s.owner, s.register, RegisterCall(s, id)) { RegisteredHas(w1, s, id); }
      }
    }
  }
}
