/** Names that are each in one place: recorded, orphaned, or held by one worker. */
module Ledger {

  function HeldNames(held: map<nat, set<string>>): set<string> {
    set id, n | id in held && n in held[id] :: n
  }

  lemma HeldAfterUpdate(held: map<nat, set<string>>, id: nat, kept: set<string>)
    ensures HeldNames(held[id := kept]) == HeldNames(held - {id}) + kept
  {
    var held', rest := held[id := kept], held - {id};
    forall n | n in HeldNames(held') ensures n in HeldNames(rest) + kept {
      var a :| a in held' && n in held'[a];
      assert a != id ==> a in rest && rest[a] == held'[a];
    }
    forall n | n in HeldNames(rest) + kept ensures n in HeldNames(held') {
      var a :| if n in kept then a == id else a in rest && n in rest[a];
      assert n in held'[a];
    }
  }

  lemma HeldAfterRemoval(held: map<nat, set<string>>, id: nat)
    requires id in held
    ensures HeldNames(held) == HeldNames(held - {id}) + held[id]
  {
    HeldAfterUpdate(held, id, held[id]);
    assert held[id := held[id]] == held;
  }

  lemma OthersHold(held: map<nat, set<string>>, id: nat)
    requires id in held
    requires forall a, b :: a in held && b in held && a != b ==> held[a] !! held[b]
    ensures HeldNames(held - {id}) !! held[id]
  {
  }

  predicate Balanced(owned: set<string>, recorded: set<string>, orphans: set<string>, held: map<nat, set<string>>) {
    && owned == recorded + orphans + HeldNames(held)
    && recorded !! orphans !! HeldNames(held)
    && forall a, b :: a in held && b in held && a != b ==> held[a] !! held[b]
  }

  lemma Open(owned: set<string>, recorded: set<string>, orphans: set<string>, held: map<nat, set<string>>,
             id: nat, made: set<string>, kept: set<string>)
    requires Balanced(owned, recorded, orphans, held)
    requires id !in held && made !! owned && kept <= made
    ensures Balanced(owned + made, recorded, orphans + (made - kept), held[id := kept])
  {
    HeldAfterUpdate(held, id, kept);
    assert held - {id} == held;
    forall a | a in held ensures held[a] !! kept {
      assert held[a] <= HeldNames(held);
    }
  }

  lemma Shrink(owned: set<string>, recorded: set<string>, orphans: set<string>, held: map<nat, set<string>>,
               id: nat, kept: set<string>)
    requires Balanced(owned, recorded, orphans, held)
    requires id in held && kept <= held[id]
    ensures Balanced(owned, recorded, orphans + (held[id] - kept), held[id := kept])
  {
    HeldAfterUpdate(held, id, kept);
    HeldAfterRemoval(held, id);
    OthersHold(held, id);
  }

  lemma Close(owned: set<string>, recorded: set<string>, orphans: set<string>, held: map<nat, set<string>>, id: nat)
    requires Balanced(owned, recorded, orphans, held)
    requires id in held
    ensures Balanced(owned, recorded, orphans + held[id], held - {id})
    ensures recorded == {} ==> Balanced(owned, held[id], orphans, held - {id})
  {
    HeldAfterRemoval(held, id);
    OthersHold(held, id);
  }

  /** The totals add up. */
  lemma Total(owned: set<string>, recorded: set<string>, orphans: set<string>, held: map<nat, set<string>>)
    requires Balanced(owned, recorded, orphans, held)
    ensures |owned| == |recorded| + |orphans| + |HeldNames(held)|
  {
  }

  lemma {:induction false} AtMostOneEach(held: map<nat, set<string>>)
    requires forall id :: id in held ==> |held[id]| <= 1
    ensures |HeldNames(held)| <= |held|
    decreases |held|
  {
    if held == map[] {
      assert HeldNames(held) == {};
    } else {
      var id :| id in held;
      var rest := held - {id};
      assert rest.Keys == held.Keys - {id};
      assert |rest| == |held| - 1;
      AtMostOneEach(rest);
      HeldAfterRemoval(held, id);
    }
  }
}
