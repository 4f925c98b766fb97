/** The layers of functions compute exactly the relation: an instruction takes one world to
    another if and only if the relation holds of the two. */
module Agreement {
  import opened Numbers
  import opened Sequences
  import opened State
  import opened Curve
  import opened Margin
  import opened Funding
  import opened Controller
  import opened Instructions
  import opened Protocol
  import opened TradeAgreement
  import opened OrderAgreement
  import opened FundingAgreement
  import R = Relation

  // ------------------------------------------------------------ collateral and orders

  lemma DepositIff(cfg: Config, u: User, amount: u64, u': User)
    ensures DepositCollateral(cfg, u, amount) == Ok(u') <==> !cfg.paused && R.Deposits(u, amount, u')
  {
  }

  lemma WithdrawIff(cfg: Config, u: User, m: Market, amount: u64, price: u64, u': User)
    ensures WithdrawCollateral(cfg, u, m, amount, price) == Ok(u')
      <==> !cfg.paused && R.Withdraws(u, m, amount, price, u')
  {
    hide RequireInitial, R.Margined;
    var found := FindPosition(u.positions, m.index);
    forall at: nat { HeldIff(u.positions, m.index, at); }
    hide FindPosition, R.Held;
    if found.Some? && 0 < amount <= u.collateral {
      var at, remaining: u64 := found.value, u.collateral - amount;
      assert R.Held(u.positions, m.index, at);
      if RequireInitial(remaining, u.positions[at], price, m).Ok? {
        var v := InitialGives(remaining, u.positions[at], price, m);
      } else if v :| R.Margined(remaining, u.positions[at], price, m, v) {
        InitialTakes(remaining, u.positions[at], price, m, v);
      }
    }
  }

  lemma PlaceGives(cfg: Config, u: User, m: Market, p: OrderParams, now: i64, u': User) returns (slot: nat)
    requires PlaceOrder(cfg, u, m, p, now) == Ok(u')
    ensures !cfg.paused && R.Places(u, m, p, now, u', slot)
  {
    slot := Position(u.orders, NotOpen()).value;
    FreeIff(u.orders, slot);
    hide Position;
  }

  lemma FreeIff(os: seq<Order>, slot: nat)
    ensures Position(os, NotOpen()) == Some(slot) <==>
      slot < |os| && os[slot].status != Open && forall i :: 0 <= i < slot ==> os[i].status == Open
  {
    var r := Position(os, NotOpen());
    if r.Some? {
      assert NotOpen()(os[r.value]);
      assert forall i :: 0 <= i < r.value ==> !NotOpen()(os[i]);
    } else {
      assert forall i :: 0 <= i < |os| ==> !NotOpen()(os[i]);
    }
  }

  lemma PlaceTakes(cfg: Config, u: User, m: Market, p: OrderParams, now: i64, u': User, slot: nat)
    requires !cfg.paused && R.Places(u, m, p, now, u', slot)
    ensures PlaceOrder(cfg, u, m, p, now) == Ok(u')
  {
    FreeIff(u.orders, slot);
    hide Position;
    assert u'.orders[slot] == RestingOrder(u.nextOrderId, m.index, p, now);
  }

  lemma CancelIff(u: User, id: u32, u': User)
    ensures CancelOrder(u, id) == Ok(u') <==> exists slot: nat :: R.Finds(u.orders, id, slot) && R.Cancels(u, slot, u')
  {
    forall slot: nat { FindsIff(u.orders, id, slot); }
    if FindOrder(u.orders, id).Ok? { assert R.Finds(u.orders, id, FindOrder(u.orders, id).value); }
    hide FindOrder, R.Finds;
  }

  lemma ResolveIff(u: User, insurance: u64, u': User, insurance': u64)
    ensures ResolveBankruptcy(u, insurance) == Ok((u', insurance')) <==> R.Resolves(u, insurance, u', insurance')
  {
  }

  // ------------------------------------------------------------ administration

  lemma CreateIff(n: nat, p: MarketParams, now: i64, m: Market)
    ensures InitializeMarket(n, p, now) == Ok(m) <==> R.Creates(n, p, now, m)
  {
  }

  lemma RetuneIff(m: Market, a: MarketArgs, m': Market)
    ensures UpdateMarketParams(m, a) == Ok(m') <==> R.Retunes(m, a, m')
  {
  }

  lemma NewIff(u: User)
    ensures u == NewUser() <==> R.New(u)
  {
    if R.New(u) {
      assert u.positions == NewUser().positions;
      assert u.orders == NewUser().orders;
    }
  }

  // ------------------------------------------------------------ whole instructions

  lemma OpenStep(w: World, ix: Instruction, w': World)
    requires ix.OpenTrade?
    ensures Step(w, ix) == Ok(w') <==> R.Does(w, ix, w')
  {
    hide ExecuteAmmOpen, R.Opens;
    var i, k, dir := ix.user, ix.market, ix.direction;
    if Step(w, ix) == Ok(w') {
      var f := ExecuteAmmOpen(w.users[i], w.markets[k], w.config.takerFeeBps, dir, ix.size, ix.limit, ix.price).value;
      var o := OpenGives(w.users[i], w.markets[k], w.config.takerFeeBps, dir, ix.size, ix.limit, ix.price, f);
    }
    if R.Does(w, ix, w') {
      var o :| R.Opens(w.users[i], w.markets[k], w.config.takerFeeBps, dir == Long, ix.size, ix.limit, ix.price,
                       w'.users[i], w'.markets[k], o);
      OpenTakes(w.users[i], w.markets[k], w.config.takerFeeBps, dir, ix.size, ix.limit, ix.price,
                w'.users[i], w'.markets[k], o);
      OpenedSize(w.users[i], w.markets[k], w.config.takerFeeBps, dir == Long, ix.size, ix.limit, ix.price,
                 w'.users[i], w'.markets[k], o);
    }
  }

  lemma OpenedSize(u: User, m: Market, feeBps: int, isLong: bool, size: int, limit: int, price: int,
                   u': User, m': Market, o: R.Opening)
    requires R.Opens(u, m, feeBps, isLong, size, limit, price, u', m', o)
    ensures size > 0
  {
  }

  lemma ClosingGives(cfg: Config, u: User, m: Market, size: u64, limit: u64, u': User, m': Market)
    returns (at: nat, c: R.Closing)
    requires ClosePosition(cfg, u, m, size, limit) == Ok((u', m'))
    ensures R.Held(u.positions, m.index, at)
    ensures R.Closes(u, m, cfg.takerFeeBps, at, R.Asked(size, u.positions[at].base), limit, u', m', c)
  {
    at := FindPosition(u.positions, m.index).value;
    hide ExecuteAmmClose, R.Closes;
    HeldIff(u.positions, m.index, at);
    AskedIs(size, u.positions[at].base);
    var asked := CloseSize(size, Abs(u.positions[at].base));
    var f := ExecuteAmmClose(u, m, cfg.takerFeeBps, at, asked, limit).value;
    c := CloseGives(u, m, cfg.takerFeeBps, at, asked, limit, f);
  }

  lemma ClosingTakes(cfg: Config, u: User, m: Market, size: u64, limit: u64, u': User, m': Market, at: nat,
                     c: R.Closing)
    requires R.Held(u.positions, m.index, at)
    requires R.Closes(u, m, cfg.takerFeeBps, at, R.Asked(size, u.positions[at].base), limit, u', m', c)
    ensures ClosePosition(cfg, u, m, size, limit) == Ok((u', m'))
  {
    hide ExecuteAmmClose, R.Closes;
    HeldIff(u.positions, m.index, at);
    AskedIs(size, u.positions[at].base);
    var asked := CloseSize(size, Abs(u.positions[at].base));
    CloseTakes(u, m, cfg.takerFeeBps, at, asked, limit, u', m', c);
  }

  lemma CloseStep(w: World, ix: Instruction, w': World)
    requires ix.Close?
    ensures Step(w, ix) == Ok(w') <==> R.Does(w, ix, w')
  {
    hide ClosePosition, R.Closes, R.Holds, R.Asked;
    var i, k := ix.user, ix.market;
    if Step(w, ix) == Ok(w') {
      var at, c := ClosingGives(w.config, w.users[i], w.markets[k], ix.size, ix.limit, w'.users[i], w'.markets[k]);
    }
    if R.Does(w, ix, w') {
      var u, m := w.users[i], w.markets[k];
      var at: nat, c :| R.Held(u.positions, m.index, at)
        && R.Closes(u, m, w.config.takerFeeBps, at, R.Asked(ix.size, u.positions[at].base), ix.limit,
                    w'.users[i], w'.markets[k], c);
      ClosingTakes(w.config, u, m, ix.size, ix.limit, w'.users[i], w'.markets[k], at, c);
    }
  }

  lemma FillStep(w: World, ix: Instruction, w': World)
    requires ix.Fill?
    ensures Step(w, ix) == Ok(w') <==> R.Does(w, ix, w')
  {
    hide FillOrder, R.Fills, R.Finds;
    var i, k := ix.user, ix.market;
    if Step(w, ix) == Ok(w') {
      var slot := FillGives(w.config, w.users[i], w.markets[k], ix.id, ix.price, (w'.users[i], w'.markets[k]));
    }
    if R.Does(w, ix, w') {
      var slot: nat :| R.Finds(w.users[i].orders, ix.id, slot)
        && R.Fills(w.config, w.users[i], w.markets[k], slot, ix.price, w'.users[i], w'.markets[k]);
      FillTakes(w.config, w.users[i], w.markets[k], ix.id, ix.price, slot, w'.users[i], w'.markets[k]);
    }
  }

  lemma TriggerStep(w: World, ix: Instruction, w': World)
    requires ix.Trigger?
    ensures Step(w, ix) == Ok(w') <==> R.Does(w, ix, w')
  {
    hide TriggerOrder, R.Triggers, R.Finds;
    var i, k := ix.user, ix.market;
    if Step(w, ix) == Ok(w') {
      var slot, at, c := TriggerGives(w.config, w.users[i], w.markets[k], ix.id, ix.price,
                                      (w'.users[i], w'.markets[k]));
    }
    if R.Does(w, ix, w') {
      var slot: nat, at: nat, c :| R.Finds(w.users[i].orders, ix.id, slot)
        && R.Triggers(w.config, w.users[i], w.markets[k], slot, ix.price, w'.users[i], w'.markets[k], at, c);
      TriggerTakes(w.config, w.users[i], w.markets[k], ix.id, ix.price, slot, w'.users[i], w'.markets[k], at, c);
    }
  }

  lemma MatchStep(w: World, ix: Instruction, w': World)
    requires ix.Match?
    ensures Step(w, ix) == Ok(w') <==> R.Does(w, ix, w')
  {
    hide FillMatch, R.MatchesPeers;
    var t, i, k := ix.taker, ix.maker, ix.market;
    if Step(w, ix) == Ok(w') {
      var f := FillMatch(w.config, w.users[t], w.users[i], t == i, w.markets[k], ix.takerId, ix.makerId,
                         ix.price).value;
      var x := MatchGives(w.config, w.users[t], w.users[i], t == i, w.markets[k], ix.takerId, ix.makerId, ix.price, f);
    }
    if R.Does(w, ix, w') {
      var x :| R.MatchesPeers(w.config, w.users[t], w.users[i], w.markets[k], ix.takerId, ix.makerId, ix.price,
                              w'.users[t], w'.users[i], w'.markets[k], x);
      MatchTakes(w.config, w.users[t], w.users[i], t == i, w.markets[k], ix.takerId, ix.makerId, ix.price,
                 w'.users[t], w'.users[i], w'.markets[k], x);
    }
  }

  lemma LiquidateStep(w: World, ix: Instruction, w': World)
    requires ix.Liquidate?
    ensures Step(w, ix) == Ok(w') <==> R.Does(w, ix, w')
  {
    hide LiquidatePerp, R.Liquidates;
    var i, k := ix.user, ix.market;
    if Step(w, ix) == Ok(w') {
      var l := LiquidatePerp(w.users[i], w.markets[k], w.insurance, ix.maxBase, ix.price).value;
      var x := LiquidateGives(w.users[i], w.markets[k], w.insurance, ix.maxBase, ix.price, l);
    }
    if R.Does(w, ix, w') {
      var x :| R.Liquidates(w.users[i], w.markets[k], w.insurance, ix.maxBase, ix.price,
                            w'.users[i], w'.markets[k], w'.insurance, x);
      LiquidateTakes(w.users[i], w.markets[k], w.insurance, ix.maxBase, ix.price,
                     Liquidation(w'.users[i], w'.markets[k], w'.insurance), x);
    }
  }

  lemma FundingStep(w: World, ix: Instruction, w': World)
    requires ix.CrankFunding? || ix.Settle?
    ensures Step(w, ix) == Ok(w') <==> R.Does(w, ix, w')
  {
    hide UpdateFundingRate, SettleFunding, R.Cranks, R.Settles;
    var k := ix.market;
    if Step(w, ix) == Ok(w') {
      if ix.CrankFunding? {
        var c := CrankGives(w.markets[k], ix.price, ix.now, w'.markets[k]);
      } else {
        var at, payment := SettleGives(w.users[ix.user], w.markets[k], w'.users[ix.user]);
      }
    }
    if R.Does(w, ix, w') {
      if ix.CrankFunding? {
        var c :| R.Cranks(w.markets[k], ix.price, ix.now, w'.markets[k], c);
        CrankTakes(w.markets[k], ix.price, ix.now, w'.markets[k], c);
      } else {
        var at: nat, payment :| R.Settles(w.users[ix.user], w.markets[k], w'.users[ix.user], at, payment);
        SettleTakes(w.users[ix.user], w.markets[k], w'.users[ix.user], at, payment);
      }
    }
  }

  lemma CollateralStep(w: World, ix: Instruction, w': World)
    requires ix.Deposit? || ix.Withdraw? || ix.Resolve?
    ensures Step(w, ix) == Ok(w') <==> R.Does(w, ix, w')
  {
    hide DepositCollateral, WithdrawCollateral, ResolveBankruptcy, R.Deposits, R.Withdraws, R.Resolves;
    var i := ix.user;
    if i < |w.users| == |w'.users| {
      if ix.Deposit? {
        DepositIff(w.config, w.users[i], ix.amount, w'.users[i]);
      } else if ix.Withdraw? {
        if ix.market < |w.markets| {
          WithdrawIff(w.config, w.users[i], w.markets[ix.market], ix.amount, ix.price, w'.users[i]);
        }
      } else {
        ResolveIff(w.users[i], w.insurance, w'.users[i], w'.insurance);
      }
    }
  }

  lemma OrderStep(w: World, ix: Instruction, w': World)
    requires ix.Place? || ix.Cancel?
    ensures Step(w, ix) == Ok(w') <==> R.Does(w, ix, w')
  {
    hide PlaceOrder, CancelOrder, R.Places, R.Cancels, R.Finds;
    var i := ix.user;
    if ix.Cancel? && i < |w.users| == |w'.users| { CancelIff(w.users[i], ix.id, w'.users[i]); }
    if ix.Place? && Step(w, ix) == Ok(w') {
      var slot := PlaceGives(w.config, w.users[i], w.markets[ix.market], ix.order, ix.now, w'.users[i]);
    }
    if ix.Place? && R.Does(w, ix, w') {
      var slot: nat :| R.Places(w.users[i], w.markets[ix.market], ix.order, ix.now, w'.users[i], slot);
      PlaceTakes(w.config, w.users[i], w.markets[ix.market], ix.order, ix.now, w'.users[i], slot);
    }
  }

  lemma AdminStep(w: World, ix: Instruction, w': World)
    requires ix.InitUser? || ix.InitMarket? || ix.SetParams? || ix.SetPaused?
    ensures Step(w, ix) == Ok(w') <==> R.Does(w, ix, w')
  {
    hide InitializeMarket, UpdateMarketParams, R.Creates, R.Retunes, R.New, NewUser;
    if ix.InitUser? && |w'.users| == |w.users| + 1 {
      NewIff(w'.users[|w.users|]);
    } else if ix.InitMarket? && |w'.markets| == |w.markets| + 1 {
      CreateIff(|w.markets|, ix.params, ix.now, w'.markets[|w.markets|]);
    } else if ix.SetParams? && ix.market < |w.markets| == |w'.markets| {
      RetuneIff(w.markets[ix.market], ix.args, w'.markets[ix.market]);
    }
  }

  /** An instruction takes one world to another if and only if the relation holds of the two. */
  lemma StepIff(w: World, ix: Instruction, w': World)
    ensures Step(w, ix) == Ok(w') <==> R.Does(w, ix, w')
  {
    hide Step, R.Does;
    match ix
    case InitUser | InitMarket(_, _) | SetParams(_, _) | SetPaused(_) => AdminStep(w, ix, w');
    case Deposit(_, _) | Withdraw(_, _, _, _) | Resolve(_) => CollateralStep(w, ix, w');
    case Place(_, _, _, _) | Cancel(_, _) => OrderStep(w, ix, w');
    case OpenTrade(_, _, _, _, _, _) => OpenStep(w, ix, w');
    case Close(_, _, _, _) => CloseStep(w, ix, w');
    case Fill(_, _, _, _) => FillStep(w, ix, w');
    case Match(_, _, _, _, _, _) => MatchStep(w, ix, w');
    case Trigger(_, _, _, _) => TriggerStep(w, ix, w');
    case CrankFunding(_, _, _) | Settle(_, _) => FundingStep(w, ix, w');
    case Liquidate(_, _, _, _) => LiquidateStep(w, ix, w');
  }

  /** So the accounts of every history are determined by the relation alone. */
  lemma OneOutcome(w: World, ix: Instruction, w1: World, w2: World)
    requires R.Does(w, ix, w1) && R.Does(w, ix, w2)
    ensures w1 == w2
  {
    StepIff(w, ix, w1);
    StepIff(w, ix, w2);
    hide Step, R.Does;
  }
}
