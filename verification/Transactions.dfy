/** Database transactions as the endpoints use them: statements in order, some inside a
    `try ... except` that swallows what they raise, then a commit. */
module Transactions {

  /** What happens at a statement: nothing special, an exception before the server is reached, or
      a refusal by the server, which aborts the transaction and raises as well. */
  datatype Trouble = Fine | ClientRaises | ServerRefuses

  /** `guarded`: the statement stands inside the swallowing block. */
  datatype Statement<!T> = Statement(effect: T -> T, guarded: bool)

  /** `aborted` is the server's view, `raised` tells that an exception left the block. */
  datatype Tx<T> = Tx(tables: T, aborted: bool, raised: bool)

  datatype World = World(troubles: seq<Trouble>, commitRaises: bool) {
    function At(k: nat): Trouble {
      if k < |troubles| then troubles[k] else Fine
    }
  }

  datatype Ending<T> = Ending(tables: T, replied: bool)

  function Opened<T>(before: T): Tx<T> {
    Tx(before, false, false)
  }

  /** In an aborted transaction the server refuses every further statement. */
  function Execute<T>(tx: Tx<T>, s: Statement<T>, trouble: Trouble): Tx<T> {
    if tx.raised then tx
    else if trouble.ClientRaises? then tx.(raised := !s.guarded)
    else if tx.aborted || trouble.ServerRefuses? then Tx(tx.tables, true, !s.guarded)
    else tx.(tables := s.effect(tx.tables))
  }

  function All<T>(before: T, statements: seq<Statement<T>>, w: World): Tx<T> {
    if statements == [] then Opened(before)
    else
      var n := |statements| - 1;
      Execute(All(before, statements[..n], w), statements[n], w.At(n))
  }

  /** COMMIT of an aborted transaction rolls back, without an error. */
  function Close<T>(before: T, tx: Tx<T>, w: World): Ending<T> {
    if tx.raised || w.commitRaises then Ending(before, false)
    else if tx.aborted then Ending(before, true)
    else Ending(tx.tables, true)
  }

  function Transact<T>(before: T, statements: seq<Statement<T>>, w: World): Ending<T> {
    Close(before, All(before, statements, w), w)
  }

  // ---------------------------------------------------------------- when the reply is true

  /** What the statements without trouble do together. */
  function Effects<T>(before: T, statements: seq<Statement<T>>, w: World): T {
    if statements == [] then before
    else
      var n := |statements| - 1;
      var earlier := Effects(before, statements[..n], w);
      if w.At(n).Fine? then statements[n].effect(earlier) else earlier
  }

  predicate Refused(w: World, n: nat) {
    exists j: nat :: j < n && w.At(j).ServerRefuses?
  }

  /** Statement `k` raises into the endpoint: it is not guarded and has trouble of its own, or
      comes after one that the server refused. */
  predicate Escapes<T>(statements: seq<Statement<T>>, w: World, k: nat) {
    k < |statements| && !statements[k].guarded && (!w.At(k).Fine? || Refused(w, k))
  }

  lemma RefusedGrows(w: World, n: nat)
    ensures Refused(w, n + 1) <==> Refused(w, n) || w.At(n).ServerRefuses?
  {
    if Refused(w, n) {
      var j: nat :| j < n && w.At(j).ServerRefuses?;
      assert j < n + 1;
    }
  }

  lemma {:induction false} AllFacts<T>(before: T, statements: seq<Statement<T>>, w: World)
    ensures var tx := All(before, statements, w);
            && (tx.raised <==> exists k: nat :: Escapes(statements, w, k))
            && (!tx.raised ==> (tx.aborted <==> Refused(w, |statements|)))
            && (!tx.raised && !tx.aborted ==> tx.tables == Effects(before, statements, w))
  {
    if statements != [] {
      var n := |statements| - 1;
      var prefix := statements[..n];
      AllFacts(before, prefix, w);
      RefusedGrows(w, n);
      forall k: nat
        ensures Escapes(statements, w, k) <==> Escapes(prefix, w, k) || (k == n && Escapes(statements, w, n))
      {
      }
      var earlier := All(before, prefix, w);
      if earlier.raised {
        var k: nat :| Escapes(prefix, w, k);
        assert Escapes(statements, w, k);
      } else {
        assert Execute(earlier, statements[n], w.At(n)).raised <==> Escapes(statements, w, n);
      }
    }
  }

  /** The endpoint replies exactly when nothing escapes and the commit does not raise; what it
      replies is then true exactly when the server refused nothing - a refusal that is swallowed
      silently undoes the whole transaction. Without a reply nothing is stored. */
  lemma ReplyIff<T>(before: T, statements: seq<Statement<T>>, w: World)
    ensures var e := Transact(before, statements, w);
            && (e.replied <==> !w.commitRaises && forall k: nat :: !Escapes(statements, w, k))
            && (!e.replied ==> e.tables == before)
            && (e.replied ==>
                 e.tables == if Refused(w, |statements|) then before else Effects(before, statements, w))
  {
    AllFacts(before, statements, w);
    hide Escapes, Refused, Effects, All;
  }
}
