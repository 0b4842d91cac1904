// When the handler accepts a deposit or an execution, exactly, and what its registry holds after
// any run of settings.
module HandlerLaws {
  import opened Words
  import opened Bytes
  import opened Payload
  import opened Ledger
  import opened H = Erc20Handler

  // ----- acceptance -----

  // A deposit is accepted if and only if the bridge asks for it, the data has an amount, the
  // resource has a whitelisted token with code, the fee exists and is within the amount, and the
  // depositor has the amount and has allowed the handler to take it while the token runs.
  lemma DepositAccepted(w: World, g: Registry, at: Deployment, f: Fees, caller: Address, r: ResourceID,
                        depositor: Address, data: Bytes)
    requires g.TokenOf(r) in w ==> Balanced(w[g.TokenOf(r)])
    ensures var token := g.TokenOf(r);
            DepositStep(w, g, at, f, caller, r, depositor, data).Ok? <==>
              && caller == at.bridge && |data| >= 32 && token in g.whitelist && token in w
              && var amount, l := FromBytes(data[..32]), w[token];
              && amount < TWO_256 && CalculateFee(f, amount).Ok?
              && var fee := CalculateFee(f, amount).value;
              && fee <= amount && !l.paused && ZERO_ADDRESS !in {depositor, at.treasury, at.self}
              && amount <= l.Allowance(depositor, at.self)
              && fee <= l.Balance(depositor) && amount <= l.Balance(depositor) + Share(depositor, at.treasury, fee)
  {
    hide TakeIn, CalculateFee, Balanced;
    var token := g.TokenOf(r);
    if |data| >= 32 {
      WordFits(data[..32]);
      var amount := FromBytes(data[..32]);
      if token in w && CalculateFee(f, amount).Ok? && CalculateFee(f, amount).value <= amount {
        var fee := CalculateFee(f, amount).value;
        TakeInSucceeds(w[token], at, token in g.burnList, depositor, fee, amount - fee);
      }
    }
  }

  // An execution is accepted if and only if the bridge asks for it, the data has an amount and a
  // recipient, the resource has a whitelisted token with code, the fee exists and is within the
  // amount, and the token can mint the rest, or release it from what the handler holds.
  lemma ExecutionAccepted(w: World, g: Registry, at: Deployment, f: Fees, caller: Address, r: ResourceID, data: Bytes)
    requires g.TokenOf(r) in w ==> Balanced(w[g.TokenOf(r)])
    ensures var token := g.TokenOf(r);
            ExecuteStep(w, g, at, f, caller, r, data).Ok? <==>
              && caller == at.bridge && ProposalFields(data) != None && token in g.whitelist && token in w
              && var (amount, recipient) := ProposalFields(data).value;
              && amount < TWO_256 && CalculateFee(f, amount).Ok? && CalculateFee(f, amount).value <= amount
              && var net, l := amount - CalculateFee(f, amount).value, w[token];
              && !l.paused && recipient != ZERO_ADDRESS
              && if token in g.burnList then at.self in l.minters && l.totalSupply + net < TWO_256
                 else at.self != ZERO_ADDRESS && net <= l.Balance(at.self)
  {
    hide PayOut, CalculateFee, Balanced;
    var token := g.TokenOf(r);
    if ProposalFields(data) != None {
      WordFits(data[..32]);
      var (amount, recipient) := ProposalFields(data).value;
      if token in w && CalculateFee(f, amount).Ok? && CalculateFee(f, amount).value <= amount {
        PayOutSucceeds(w[token], at, token in g.burnList, recipient, amount - CalculateFee(f, amount).value);
      }
    }
  }

  // ----- the registry over runs -----

  datatype Setting = MapToken(resourceID: ResourceID, token: Address) | MarkBurnable(token: Address)

  // What the bridge sets; only a whitelisted token can be marked.
  function Applied(g: Registry, s: Setting): Registry {
    match s
    case MapToken(r, token) => g.MapTo(r, token)
    case MarkBurnable(token) => if token in g.whitelist then g.Burning(token) else g
  }

  function Configured(settings: seq<Setting>): Registry
    decreases |settings|
  {
    if settings == [] then Registry(map[], map[], {}, {})
    else Applied(Configured(settings[..|settings| - 1]), settings[|settings| - 1])
  }

  // The token a resource was last mapped to.
  function LastMapped(settings: seq<Setting>, r: ResourceID): Address
    decreases |settings|
  {
    if settings == [] then ZERO_ADDRESS
    else
      var last := settings[|settings| - 1];
      if last.MapToken? && last.resourceID == r then last.token else LastMapped(settings[..|settings| - 1], r)
  }

  // The resource a token was last given.
  function LastGiven(settings: seq<Setting>, token: Address): Option<ResourceID>
    decreases |settings|
  {
    if settings == [] then None
    else
      var last := settings[|settings| - 1];
      if last.MapToken? && last.token == token then Some(last.resourceID)
      else LastGiven(settings[..|settings| - 1], token)
  }

  ghost predicate EverMapped(settings: seq<Setting>, token: Address) {
    exists i :: 0 <= i < |settings| && settings[i].MapToken? && settings[i].token == token
  }

  // After every run of settings a resource has the token it was last mapped to, and a token the
  // resource it was last given; the whitelist is what was ever mapped, and burnable is what was
  // marked after it had been mapped.
  lemma {:induction false} RegistryMeaning(settings: seq<Setting>)
    ensures var g := Configured(settings);
            && (forall r :: g.TokenOf(r) == LastMapped(settings, r))
            && (forall t :: LastGiven(settings, t) == if t in g.resourceOf then Some(g.resourceOf[t]) else None)
            && (forall token :: token in g.whitelist <==> EverMapped(settings, token))
            && (forall token :: token in g.burnList <==>
                  exists i :: 0 <= i < |settings| && settings[i] == MarkBurnable(token)
                              && EverMapped(settings[..i], token))
    decreases |settings|
  {
    if settings != [] {
      var n := |settings| - 1;
      var before, last := settings[..n], settings[n];
      RegistryMeaning(before);
      hide Configured, LastMapped, LastGiven;
      var g, g' := Configured(before), Configured(settings);
      assert g' == Applied(g, last);
      forall token ensures token in g'.whitelist <==> EverMapped(settings, token) {
        EverMappedNext(settings, token);
      }
      forall token
        ensures token in g'.burnList <==>
                exists i :: 0 <= i < |settings| && settings[i] == MarkBurnable(token)
                  && EverMapped(settings[..i], token)
      {
        MarkedNext(settings, token);
      }
      forall r ensures g'.TokenOf(r) == LastMapped(settings, r) {}
      forall t ensures LastGiven(settings, t) == if t in g'.resourceOf then Some(g'.resourceOf[t]) else None {}
    }
  }

  lemma EverMappedNext(settings: seq<Setting>, token: Address)
    requires settings != []
    ensures var n := |settings| - 1;
            EverMapped(settings, token) <==>
              EverMapped(settings[..n], token) || (settings[n].MapToken? && settings[n].token == token)
  {
    var n := |settings| - 1;
    if i :| 0 <= i < |settings| && settings[i].MapToken? && settings[i].token == token && i < n {
      assert settings[..n][i] == settings[i];
    }
  }

  lemma MarkedNext(settings: seq<Setting>, token: Address)
    requires settings != []
    ensures var n := |settings| - 1;
            var before := settings[..n];
            (exists i :: 0 <= i < |settings| && settings[i] == MarkBurnable(token) && EverMapped(settings[..i], token))
            <==>
              (exists i :: 0 <= i < |before| && before[i] == MarkBurnable(token) && EverMapped(before[..i], token))
              || (settings[n] == MarkBurnable(token) && EverMapped(before, token))
  {
    hide EverMapped;
    var n := |settings| - 1;
    forall i | 0 <= i < n ensures settings[..n][i] == settings[i] && settings[..n][..i] == settings[..i] {}
  }
}
