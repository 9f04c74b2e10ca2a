/** What the relation-state operations promise together: the key tip keeps
    agreeing with the history, disconnecting a block undoes connecting it,
    and reloading a stored batch replays what was accepted. */
module RelationProperties {
  import opened Basics
  import opened Blob
  import opened Actions
  import opened Transaction
  import opened RelationState

  /** The identities the non-Nil actions of a sequence act on. */
  function Froms(actions: seq<Action>): set<KeyID>
  {
    if actions == [] then {}
    else
      var last := actions[|actions| - 1];
      Froms(actions[..|actions| - 1]) + (if last.Nil? then {} else {From(last)})
  }

  // ---------------------------------------------------------------- small facts

  /** The key id an action records in the history: the target of a bind,
      the null id for an unbind. */
  function TargetOf(a: Action): KeyID
  {
    if a.Bind? then a.to else NullId
  }

  lemma TopAfterUpdate(hs: History, height: int, to: KeyID)
    requires forall h :: h in hs ==> h <= height
    ensures LatestOf(hs[height := to]) == to
  {
    var hs' := hs[height := to];
    assert height in hs';
    var k := MaxKey(hs');
    assert height <= k;
  }

  lemma TruncatedOfBelow(m: Mem, x: KeyID, height: int)
    requires forall h :: h in HistoryOf(m, x) ==> h < height
    ensures Truncated(m, x, height) == HistoryOf(m, x)
  {
  }

  /** AcceptAction as seen by one identity: its own action records its
      target at the height and sets its key tip to it; anybody else's
      history and key tip are untouched. */
  lemma AcceptAt(c: Crypto, m: Mem, height: int, action: Action, poc21: bool, x: KeyID)
    ensures var r := Accept(c, m, height, action, poc21);
      && (!action.Nil? && From(action) == x ==>
            && x in r.history && HistoryOf(r, x) == HistoryOf(m, x)[height := TargetOf(action)]
            && ToKey(r, x) == TargetOf(action))
      && (!(!action.Nil? && From(action) == x) ==>
            HistoryOf(r, x) == HistoryOf(m, x) && (x in r.history <==> x in m.history) && ToKey(r, x) == ToKey(m, x))
  {
  }

  // ---------------------------------------------------------------- preserved invariants

  /** AcceptAction at a height no lower than any recorded one keeps the key
      tip in agreement with the history, and leaves no empty history. */
  lemma AcceptKeepsAgrees(c: Crypto, m: Mem, height: int, action: Action, poc21: bool)
    requires Agrees(m) && AllAtMost(m, height)
    ensures var r := Accept(c, m, height, action, poc21);
      Agrees(r) && AllAtMost(r, height) && (NoEmptyHistory(m) ==> NoEmptyHistory(r))
  {
    var r := Accept(c, m, height, action, poc21);
    forall x
      ensures ToKey(r, x) == LatestOf(HistoryOf(r, x))
      ensures forall h :: h in HistoryOf(r, x) ==> h <= height
      ensures NoEmptyHistory(m) && x in r.history ==> r.history[x] != map[]
    {
      AcceptAt(c, m, height, action, poc21, x);
      assert forall h :: h in HistoryOf(m, x) ==> h <= height;
      if !action.Nil? && From(action) == x {
        TopAfterUpdate(HistoryOf(m, x), height, TargetOf(action));
        assert height in HistoryOf(r, x);
      }
    }
    assert AllAtMost(r, height) by {
      forall x, h | x in r.history && h in r.history[x] ensures h <= height {
        assert h in HistoryOf(r, x);
      }
    }
  }

  /** removeRelationHistory keeps the key tip in agreement with the history
      and leaves no empty history behind. */
  lemma RemoveKeepsAgrees(c: Crypto, m: Mem, height: int, from: KeyID, poc21: bool)
    requires Agrees(m)
    ensures var r := RemoveHistory(c, m, height, from, poc21);
      Agrees(r) && (NoEmptyHistory(m) ==> NoEmptyHistory(r))
      && (forall h :: AllAtMost(m, h) ==> AllAtMost(r, h))
  {
    var r := RemoveHistory(c, m, height, from, poc21);
    forall x
      ensures ToKey(r, x) == LatestOf(HistoryOf(r, x))
    {
      if x != from {
        assert ToKey(r, x) == ToKey(m, x);
      }
    }
  }

  // ---------------------------------------------------------------- connect

  /** One iteration of ConnectBlock's loop either throws, skips the
      transaction, or accepts one bind or unbind, adding its relation and
      its batch. */
  lemma StepShape(c: Crypto, ctx: ChainContext, o: Outcome, height: int, tx: Transaction, poc21: bool)
    requires |tx.vin| > 0
    ensures var o' := ConnectStep(c, ctx, o, height, tx, poc21);
      || o' == o.(raised := true)
      || o' == o
      || (exists a: Action ::
            && !a.Nil?
            && o' == o.(mem := Accept(c, o.mem, height, a, poc21),
                        relations := o.relations + RelationsFor(ctx.txHash(tx), a),
                        batches := o.batches + [PlotBatch(c, a, poc21)],
                        accepted := o.accepted + [a]))
  {
    var e := ExtractedAction(ctx, tx, []);
    if e.Ok? {
      var a := e.value.0;
      if !a.Nil? && VerifyAction(c, tx.vin[0].prevout, a, e.value.1) {
        assert !a.Nil?;
      }
    }
  }

  lemma InitHasInputs(txs: seq<Transaction>)
    requires HasInputs(txs) && txs != []
    ensures HasInputs(txs[..|txs| - 1]) && |txs[|txs| - 1].vin| > 0
  {
    var init := txs[..|txs| - 1];
    forall i | 0 <= i < |init| ensures |init[i].vin| > 0 { assert init[i] == txs[i]; }
  }

  /** ConnectBlock's in-memory effect is AcceptAction applied to the actions
      it accepted, in block order; each accepted action is a bind or an
      unbind, and each contributed one relation and one batch. */
  lemma {:induction false} ConnectIsAcceptAll(c: Crypto, ctx: ChainContext, m: Mem, height: int,
                                             txs: seq<Transaction>, poc21: bool)
    requires HasInputs(txs)
    ensures var o := ConnectTxs(c, ctx, m, height, txs, poc21);
      && o.mem == AcceptAll(c, m, height, o.accepted, poc21)
      && (forall a :: a in o.accepted ==> !a.Nil?)
      && |o.relations| == |o.batches| == |o.accepted|
  {
    if txs != [] {
      var init := txs[..|txs| - 1];
      var tx := txs[|txs| - 1];
      InitHasInputs(txs);
      ConnectIsAcceptAll(c, ctx, m, height, init, poc21);
      var o := ConnectTxs(c, ctx, m, height, init, poc21);
      if !o.raised {
        StepShape(c, ctx, o, height, tx, poc21);
        var o' := ConnectStep(c, ctx, o, height, tx, poc21);
        if o' != o.(raised := true) && o' != o {
          var a: Action :| !a.Nil? && o' == o.(mem := Accept(c, o.mem, height, a, poc21),
                        relations := o.relations + RelationsFor(ctx.txHash(tx), a),
                        batches := o.batches + [PlotBatch(c, a, poc21)],
                        accepted := o.accepted + [a]);
          assert o'.accepted[..|o'.accepted| - 1] == o.accepted;
        }
      }
    }
  }

  /** Once a transaction's decoding has thrown, the rest of the block is not
      looked at: the outcome is the one at the throw. */
  lemma {:induction false} RaisedStays(c: Crypto, ctx: ChainContext, m: Mem, height: int,
                                      txs: seq<Transaction>, i: nat, poc21: bool)
    requires HasInputs(txs) && i <= |txs|
    requires ConnectTxs(c, ctx, m, height, txs[..i], poc21).raised
    ensures ConnectTxs(c, ctx, m, height, txs, poc21) == ConnectTxs(c, ctx, m, height, txs[..i], poc21)
    decreases |txs|
  {
    if i < |txs| {
      var init := txs[..|txs| - 1];
      InitHasInputs(txs);
      assert init[..i] == txs[..i];
      RaisedStays(c, ctx, m, height, init, i, poc21);
    } else {
      assert txs[..i] == txs;
    }
  }

  /** What successive AcceptAction calls at one height, above every recorded
      one, do to an identity: its entries below the height stay as they
      were, it has an entry at the height exactly when one of the actions
      is its own, and otherwise its key tip does not move. */
  lemma {:induction false} AcceptAllAt(c: Crypto, m: Mem, height: int, actions: seq<Action>, poc21: bool, x: KeyID)
    requires forall h :: h in HistoryOf(m, x) ==> h < height
    ensures var r := AcceptAll(c, m, height, actions, poc21);
      && Truncated(r, x, height) == HistoryOf(m, x)
      && (x in Froms(actions) <==> height in HistoryOf(r, x))
      && (x !in Froms(actions) ==>
            HistoryOf(r, x) == HistoryOf(m, x) && (x in r.history <==> x in m.history) && ToKey(r, x) == ToKey(m, x))
      && (x in Froms(actions) ==> x in r.history)
  {
    if actions == [] {
      TruncatedOfBelow(m, x, height);
    } else {
      var init := actions[..|actions| - 1];
      var a := actions[|actions| - 1];
      AcceptAllAt(c, m, height, init, poc21, x);
      var p := AcceptAll(c, m, height, init, poc21);
      AcceptAt(c, p, height, a, poc21, x);
      var r := Accept(c, p, height, a, poc21);
      assert r == AcceptAll(c, m, height, actions, poc21);
      assert Froms(actions) == Froms(init) + (if a.Nil? then {} else {From(a)});
      if !a.Nil? && From(a) == x {
        assert Truncated(r, x, height) == Truncated(p, x, height);
      } else {
        assert x in Froms(actions) <==> x in Froms(init);
      }
    }
  }

  /** Successive AcceptAction calls at one height keep every recorded height
      at most that height. */
  lemma {:induction false} AcceptAllAtMost(c: Crypto, m: Mem, height: int, actions: seq<Action>, poc21: bool)
    requires AllAtMost(m, height)
    ensures AllAtMost(AcceptAll(c, m, height, actions, poc21), height)
  {
    if actions != [] {
      var init := actions[..|actions| - 1];
      AcceptAllAtMost(c, m, height, init, poc21);
      var p := AcceptAll(c, m, height, init, poc21);
      var r := Accept(c, p, height, actions[|actions| - 1], poc21);
      forall x, h | x in r.history && h in r.history[x] ensures h <= height {
        assert h in HistoryOf(r, x);
      }
    }
  }

  /** Successive AcceptAction calls at one height, no lower than any
      recorded one, keep the key tip in agreement with the history and
      leave no empty history. */
  lemma {:induction false} AcceptAllKeepsAgrees(c: Crypto, m: Mem, height: int, actions: seq<Action>, poc21: bool)
    requires Agrees(m) && NoEmptyHistory(m) && AllAtMost(m, height)
    ensures var r := AcceptAll(c, m, height, actions, poc21);
      Agrees(r) && NoEmptyHistory(r) && AllAtMost(r, height)
  {
    if actions != [] {
      var init := actions[..|actions| - 1];
      AcceptAllKeepsAgrees(c, m, height, init, poc21);
      AcceptKeepsAgrees(c, AcceptAll(c, m, height, init, poc21), height, actions[|actions| - 1], poc21);
    }
  }

  /** ConnectBlock keeps the invariant between blocks: below the block's
      height before, at most its height after. */
  lemma ConnectKeepsConsistent(c: Crypto, ctx: ChainContext, m: Mem, height: int,
                               txs: seq<Transaction>, poc21: bool)
    requires HasInputs(txs) && Consistent(m, height)
    ensures Consistent(ConnectTxs(c, ctx, m, height, txs, poc21).mem, height + 1)
  {
    ConnectIsAcceptAll(c, ctx, m, height, txs, poc21);
    var o := ConnectTxs(c, ctx, m, height, txs, poc21);
    AcceptAllKeepsAgrees(c, m, height, o.accepted, poc21);
  }

  // ---------------------------------------------------------------- disconnect

  /** removeRelationHistory for each identity of a set, whatever the order:
      each of them is cut back to its entries below the height, with its
      key tip at the latest of those, and nobody else changes. */
  lemma {:induction false} RewindAllAt(c: Crypto, m: Mem, keys: set<KeyID>, height: int, poc21: bool, x: KeyID)
    ensures var r := RewindAll(c, m, keys, height, poc21);
      && (x !in keys ==>
            && HistoryOf(r, x) == HistoryOf(m, x) && (x in r.history <==> x in m.history) && ToKey(r, x) == ToKey(m, x)
            && (x in r.keyTip <==> x in m.keyTip))
      && (x in keys ==>
            && HistoryOf(r, x) == Truncated(m, x, height)
            && (x in r.history <==> Truncated(m, x, height) != map[])
            && ToKey(r, x) == LatestOf(Truncated(m, x, height))
            && (Truncated(m, x, height) == map[] ==> x !in r.keyTip))
    decreases |keys|
  {
    if keys != {} {
      var k := Least(keys);
      var m1 := RemoveHistory(c, m, height, k, poc21);
      RewindAllAt(c, m1, keys - {k}, height, poc21, x);
      if x != k {
        assert HistoryOf(m1, x) == HistoryOf(m, x);
        assert ToKey(m1, x) == ToKey(m, x);
      } else {
        assert ToKey(m1, k) == LatestOf(Truncated(m, k, height));
      }
    }
  }

  /** DisconnectBlock cuts back exactly the identities with an entry at the
      height and leaves every other identity as it was. */
  lemma DisconnectFacts(c: Crypto, m: Mem, height: int, x: KeyID, poc21: bool)
    ensures var r := Disconnect(c, m, height, poc21);
      && (forall h :: h in HistoryOf(r, x) ==> h != height)
      && (x !in AtHeight(m, height) ==> HistoryOf(r, x) == HistoryOf(m, x) && ToKey(r, x) == ToKey(m, x))
      && (x in AtHeight(m, height) ==> HistoryOf(r, x) == Truncated(m, x, height))
  {
    RewindAllAt(c, m, AtHeight(m, height), height, poc21, x);
  }

  /** DisconnectBlock keeps the key tip in agreement with the history. */
  lemma {:induction false} RewindKeepsAgrees(c: Crypto, m: Mem, keys: set<KeyID>, height: int, poc21: bool)
    requires Agrees(m)
    ensures var r := RewindAll(c, m, keys, height, poc21);
      Agrees(r) && (NoEmptyHistory(m) ==> NoEmptyHistory(r))
      && (forall h :: AllAtMost(m, h) ==> AllAtMost(r, h))
    decreases |keys|
  {
    if keys != {} {
      var k := Least(keys);
      RemoveKeepsAgrees(c, m, height, k, poc21);
      RewindKeepsAgrees(c, RemoveHistory(c, m, height, k, poc21), keys - {k}, height, poc21);
    }
  }

  /** DisconnectBlock at the last connected height restores the invariant
      between blocks with that height next. */
  lemma DisconnectKeepsConsistent(c: Crypto, m: Mem, height: int, poc21: bool)
    requires Consistent(m, height + 1)
    ensures Consistent(Disconnect(c, m, height, poc21), height)
  {
    var r := Disconnect(c, m, height, poc21);
    RewindKeepsAgrees(c, m, AtHeight(m, height), height, poc21);
    assert AllAtMost(m, height);
    forall x, h | x in r.history && h in r.history[x] ensures h < height {
      DisconnectFacts(c, m, height, x, poc21);
      assert h in HistoryOf(r, x);
    }
  }

  /** Connecting a block of actions at a height above every recorded one and
      then disconnecting that height restores every identity's history
      exactly, and every To() answer after POC21. */
  lemma AcceptDisconnectRoundTrip(c: Crypto, m: Mem, height: int, actions: seq<Action>, poc21: bool)
    requires Agrees(m) && NoEmptyHistory(m) && AllBelow(m, height)
    ensures var r := Disconnect(c, AcceptAll(c, m, height, actions, poc21), height, poc21);
      && r.history == m.history && (forall x :: ToKey(r, x) == ToKey(m, x))
      && (forall x :: x in Froms(actions) && x !in m.history ==> x !in r.keyTip)
  {
    var m' := AcceptAll(c, m, height, actions, poc21);
    var r := Disconnect(c, m', height, poc21);
    forall x
      ensures HistoryOf(r, x) == HistoryOf(m, x) && (x in r.history <==> x in m.history)
      ensures ToKey(r, x) == ToKey(m, x)
      ensures x in Froms(actions) && x !in m.history ==> x !in r.keyTip
    {
      assert forall h :: h in HistoryOf(m, x) ==> h < height;
      AcceptAllAt(c, m, height, actions, poc21, x);
      RewindAllAt(c, m', AtHeight(m', height), height, poc21, x);
      assert x in AtHeight(m', height) <==> x in Froms(actions);
    }
    assert r.history == m.history by {
      forall x | x in r.history ensures r.history[x] == m.history[x] {
        assert HistoryOf(r, x) == HistoryOf(m, x);
      }
    }
  }

  /** The same round trip stated on ConnectBlock itself. */
  lemma ConnectDisconnectRoundTrip(c: Crypto, ctx: ChainContext, m: Mem, height: int,
                                   txs: seq<Transaction>, poc21: bool)
    requires HasInputs(txs)
    requires Agrees(m) && NoEmptyHistory(m) && AllBelow(m, height)
    ensures var o := ConnectTxs(c, ctx, m, height, txs, poc21);
      var r := Disconnect(c, o.mem, height, poc21);
      && r.history == m.history && (forall x :: ToKey(r, x) == ToKey(m, x))
      && (forall x :: x in Froms(o.accepted) && x !in m.history ==> x !in r.keyTip)
      && Consistent(r, height)
  {
    var o := ConnectTxs(c, ctx, m, height, txs, poc21);
    ConnectIsAcceptAll(c, ctx, m, height, txs, poc21);
    AcceptDisconnectRoundTrip(c, m, height, o.accepted, poc21);
    ConnectKeepsConsistent(c, ctx, m, height, txs, poc21);
    DisconnectKeepsConsistent(c, o.mem, height, poc21);
  }

  // ---------------------------------------------------------------- load

  /** Replaying the relation AcceptAction stored for an action has the
      action's effect, except for a bind to the null key id. */
  lemma LoadEntryMatchesAccept(c: Crypto, m: Mem, height: int, txid: uint256, action: Action, poc21: bool)
    requires !action.Nil? && !(action.Bind? && action.to == NullId)
    ensures LoadEntry(c, m, height, RelationsFor(txid, action)[0], poc21) == Accept(c, m, height, action, poc21)
  {
  }

  /** A bind to the null key id is stored as a relation with the null target,
      so reloading it replays an unbind: the key tip entry that connecting
      created is gone after reloading, though To() answers the null id both
      ways and the histories agree. */
  lemma BindToNullReloadsAsUnbind(c: Crypto, m: Mem, height: int, txid: uint256, from: KeyID, poc21: bool)
    ensures var loaded := LoadEntry(c, m, height, RelationsFor(txid, Bind(from, NullId))[0], poc21);
      var accepted := Accept(c, m, height, Bind(from, NullId), poc21);
      && loaded == Accept(c, m, height, Unbind(from), poc21)
      && from in accepted.keyTip && from !in loaded.keyTip
      && ToKey(loaded, from) == ToKey(accepted, from) == NullId
      && loaded.history == accepted.history
  {
  }

  /** One iteration of ConnectBlock's loop keeps what reloading its
      relations would rebuild equal to its memory. */
  lemma LoadStep(c: Crypto, ctx: ChainContext, m: Mem, o: Outcome, height: int, tx: Transaction, poc21: bool)
    requires |tx.vin| > 0
    requires LoadBatch(c, m, height, o.relations, poc21) == o.mem
    requires forall a :: a in ConnectStep(c, ctx, o, height, tx, poc21).accepted ==> !(a.Bind? && a.to == NullId)
    ensures var o' := ConnectStep(c, ctx, o, height, tx, poc21);
      LoadBatch(c, m, height, o'.relations, poc21) == o'.mem
  {
    var e := ExtractedAction(ctx, tx, []);
    if e.Ok? && !e.value.0.Nil? && VerifyAction(c, tx.vin[0].prevout, e.value.0, e.value.1) {
      var a := e.value.0;
      StepAccepts(c, ctx, o, height, tx, poc21, a, e.value.1);
      var o' := ConnectStep(c, ctx, o, height, tx, poc21);
      assert a in o'.accepted;
      var rel := RelationsFor(ctx.txHash(tx), a);
      assert o'.relations[..|o'.relations| - 1] == o.relations;
      LoadEntryMatchesAccept(c, o.mem, height, ctx.txHash(tx), a, poc21);
    } else if e.Ok? {
      StepSkips(c, ctx, o, height, tx, poc21, e.value.0, e.value.1);
    }
  }

  /** An iteration that accepts an action. */
  lemma StepAccepts(c: Crypto, ctx: ChainContext, o: Outcome, height: int, tx: Transaction, poc21: bool,
                    a: Action, sig: seq<byte>)
    requires |tx.vin| > 0
    requires ExtractedAction(ctx, tx, []) == Ok((a, sig)) && !a.Nil? && VerifyAction(c, tx.vin[0].prevout, a, sig)
    ensures ConnectStep(c, ctx, o, height, tx, poc21)
         == o.(mem := Accept(c, o.mem, height, a, poc21),
               relations := o.relations + RelationsFor(ctx.txHash(tx), a),
               batches := o.batches + [PlotBatch(c, a, poc21)],
               accepted := o.accepted + [a])
  {
  }

  /** An iteration that skips the transaction: Nil, or a signature that
      does not verify. */
  lemma StepSkips(c: Crypto, ctx: ChainContext, o: Outcome, height: int, tx: Transaction, poc21: bool,
                  a: Action, sig: seq<byte>)
    requires |tx.vin| > 0
    requires ExtractedAction(ctx, tx, []) == Ok((a, sig)) && (a.Nil? || !VerifyAction(c, tx.vin[0].prevout, a, sig))
    ensures ConnectStep(c, ctx, o, height, tx, poc21) == o
  {
  }

  /** An iteration whose decoding throws. */
  lemma StepRaises(c: Crypto, ctx: ChainContext, o: Outcome, height: int, tx: Transaction, poc21: bool)
    requires |tx.vin| > 0 && ExtractedAction(ctx, tx, []).Err?
    ensures ConnectStep(c, ctx, o, height, tx, poc21) == o.(raised := true)
  {
  }

  /** ConnectBlock's loop one transaction further. */
  lemma ConnectSnoc(c: Crypto, ctx: ChainContext, m: Mem, height: int, txs: seq<Transaction>, i: nat, poc21: bool)
    requires HasInputs(txs) && i < |txs|
    ensures var o := ConnectTxs(c, ctx, m, height, txs[..i], poc21);
      ConnectTxs(c, ctx, m, height, txs[..i + 1], poc21)
        == if o.raised then o else ConnectStep(c, ctx, o, height, txs[i], poc21)
  {
    assert txs[..i + 1][..i] == txs[..i];
  }

  /** An iteration of ConnectBlock's loop never forgets an accepted action. */
  lemma StepKeepsAccepted(c: Crypto, ctx: ChainContext, o: Outcome, height: int, tx: Transaction, poc21: bool)
    requires |tx.vin| > 0
    ensures forall a :: a in o.accepted ==> a in ConnectStep(c, ctx, o, height, tx, poc21).accepted
  {
    StepShape(c, ctx, o, height, tx, poc21);
  }

  /** Reloading the relations ConnectBlock wrote for a block rebuilds the
      memory ConnectBlock left, when no accepted bind targets the null id. */
  lemma {:induction false} LoadReplaysConnect(c: Crypto, ctx: ChainContext, m: Mem, height: int,
                                             txs: seq<Transaction>, poc21: bool)
    requires HasInputs(txs)
    requires forall a :: a in ConnectTxs(c, ctx, m, height, txs, poc21).accepted ==> !(a.Bind? && a.to == NullId)
    ensures var o := ConnectTxs(c, ctx, m, height, txs, poc21);
      LoadBatch(c, m, height, o.relations, poc21) == o.mem
  {
    if txs != [] {
      var init := txs[..|txs| - 1];
      var tx := txs[|txs| - 1];
      InitHasInputs(txs);
      var o := ConnectTxs(c, ctx, m, height, init, poc21);
      if !o.raised {
        StepKeepsAccepted(c, ctx, o, height, tx, poc21);
        LoadReplaysConnect(c, ctx, m, height, init, poc21);
        LoadStep(c, ctx, m, o, height, tx, poc21);
      } else {
        LoadReplaysConnect(c, ctx, m, height, init, poc21);
      }
    }
  }

  /** Replaying one stored relation at a height no lower than any recorded
      one keeps the key tip in agreement with the history and leaves no
      empty history. */
  lemma LoadEntryKeepsAgrees(c: Crypto, m: Mem, height: int, rel: Relation, poc21: bool)
    requires Agrees(m) && NoEmptyHistory(m) && AllAtMost(m, height)
    ensures var r := LoadEntry(c, m, height, rel, poc21);
      Agrees(r) && NoEmptyHistory(r) && AllAtMost(r, height)
  {
    var r := LoadEntry(c, m, height, rel, poc21);
    var a := AddHistory(m, height, rel.from, rel.to);
    assert r.history == a.history;
    forall x
      ensures ToKey(r, x) == LatestOf(HistoryOf(r, x))
      ensures forall h :: h in HistoryOf(r, x) ==> h <= height
    {
      assert HistoryOf(r, x) == HistoryOf(a, x);
      assert forall h :: h in HistoryOf(m, x) ==> h <= height;
      if x == rel.from {
        assert HistoryOf(a, x) == HistoryOf(m, x)[height := rel.to];
        TopAfterUpdate(HistoryOf(m, x), height, rel.to);
      }
    }
    assert AllAtMost(r, height) by {
      forall x, h | x in r.history && h in r.history[x] ensures h <= height {
        assert h in HistoryOf(r, x);
      }
    }
  }

  /** LoadRelationFromDisk keeps the invariant between blocks: from below
      the height before to at most the height after. */
  lemma {:induction false} LoadBatchKeepsConsistent(c: Crypto, m: Mem, height: int, rs: seq<Relation>, poc21: bool)
    requires Agrees(m) && NoEmptyHistory(m) && AllAtMost(m, height)
    ensures Consistent(LoadBatch(c, m, height, rs, poc21), height + 1)
  {
    if rs != [] {
      var init := rs[..|rs| - 1];
      LoadBatchKeepsConsistent(c, m, height, init, poc21);
      var p := LoadBatch(c, m, height, init, poc21);
      assert AllAtMost(p, height);
      LoadEntryKeepsAgrees(c, p, height, rs[|rs| - 1], poc21);
    } else {
      assert AllBelow(m, height + 1);
    }
  }

  // ---------------------------------------------------------------- To

  /** Before POC21: after a bind and its batch of (plot id, key id) records,
      To() on the binder's plot id gives the bound key, even when the two
      plot ids coincide (the target is written last). */
  lemma BindThenLegacyTo(c: Crypto, m: Mem, plotKeys: map<PlotID, KeyID>, height: int, from: KeyID, to: KeyID)
    ensures var r := Accept(c, m, height, Bind(from, to), false);
      LegacyTo(r, plotKeys + PlotBatch(c, Bind(from, to), false), c.plotIdOf(from)) == to
  {
  }

  // ---------------------------------------------------------------- a worked history

  /** Disconnecting a height at which only one identity acted is that
      identity's removeRelationHistory. */
  lemma DisconnectSingle(c: Crypto, m: Mem, height: int, x: KeyID, poc21: bool)
    requires AtHeight(m, height) == {x}
    ensures Disconnect(c, m, height, poc21) == RemoveHistory(c, m, height, x, poc21)
  {
    var m1 := RemoveHistory(c, m, height, x, poc21);
    assert Least({x}) == x;
    assert {x} - {x} == {};
    assert RewindAll(c, m1, {}, height, poc21) == m1;
  }

  /** A binds to B at 100 and unbinds at 150. Disconnecting 150 puts the
      binding back; disconnecting 100 as well forgets A altogether. */
  lemma BindUnbindRewind(c: Crypto, a: KeyID, b: KeyID, poc21: bool)
    requires b != NullId
    ensures var m1 := Accept(c, EmptyMem, 100, Bind(a, b), poc21);
      var m2 := Accept(c, m1, 150, Unbind(a), poc21);
      var d1 := Disconnect(c, m2, 150, poc21);
      var d2 := Disconnect(c, d1, 100, poc21);
      && ToKey(m1, a) == b && ToKey(m2, a) == NullId
      && d1 == m1 && ToKey(d1, a) == b
      && d2.history == map[] && d2.keyTip == map[] && ToKey(d2, a) == NullId
  {
    var m1 := Accept(c, EmptyMem, 100, Bind(a, b), poc21);
    var m2 := Accept(c, m1, 150, Unbind(a), poc21);
    assert m1.history == map[a := map[100 := b]];
    assert m2.history == map[a := map[100 := b, 150 := NullId]];
    assert AtHeight(m2, 150) == {a};
    DisconnectSingle(c, m2, 150, a, poc21);
    var d1 := RemoveHistory(c, m2, 150, a, poc21);
    assert Truncated(m2, a, 150) == map[100 := b];
    assert LatestOf(map[100 := b]) == b by { assert MaxKey(map[100 := b]) == 100; }
    assert d1 == m1;
    assert AtHeight(d1, 100) == {a};
    DisconnectSingle(c, d1, 100, a, poc21);
    assert Truncated(d1, a, 100) == map[];
  }

  /** A unbinds at 100 (with no tip to erase) and binds to B at 150.
      Disconnecting 150 rewinds A to its unbind entry, which leaves A in the
      key tip mapped to the null key id where before the bind A had no entry
      at all; To() answers the null id both times and the histories agree. */
  lemma UnbindBindRewindLeavesNull(c: Crypto, a: KeyID, b: KeyID, poc21: bool)
    ensures var m1 := Accept(c, EmptyMem, 100, Unbind(a), poc21);
      var m2 := Accept(c, m1, 150, Bind(a, b), poc21);
      var d := Disconnect(c, m2, 150, poc21);
      && a !in m1.keyTip && a in d.keyTip && d.keyTip[a] == NullId
      && ToKey(d, a) == ToKey(m1, a) == NullId
      && d.history == m1.history
  {
    var m1 := Accept(c, EmptyMem, 100, Unbind(a), poc21);
    var m2 := Accept(c, m1, 150, Bind(a, b), poc21);
    assert m1.history == map[a := map[100 := NullId]];
    assert m2.history == map[a := map[100 := NullId, 150 := b]];
    assert AtHeight(m2, 150) == {a};
    DisconnectSingle(c, m2, 150, a, poc21);
    assert Truncated(m2, a, 150) == map[100 := NullId];
    assert LatestOf(map[100 := NullId]) == NullId by { assert MaxKey(map[100 := NullId]) == 100; }
  }
}
