/**
  The life of a cloned query, seen apart from what it carries: it is filed under an id, and from then on
  it is pending until it is answered or another query is filed under the same id.
*/
module RequestLedger {

  type Clone = nat

  /** Clones are numbered as they are made. */
  datatype Ledger<Id> = Ledger(
    pending: map<Id, Clone>,
    clones: nat,
    filed: map<Clone, Id>,
    lost: set<Clone>,
    answered: set<Clone>)

  /** A clone whose header cannot be read is filed nowhere. */
  function Unread<Id>(l: Ledger<Id>): Ledger<Id> {
    l.(clones := l.clones + 1, lost := l.lost + {l.clones})
  }

  /** A clone is filed under its id; a clone pending there before can no longer be found. */
  function File<Id>(l: Ledger<Id>, id: Id): Ledger<Id> {
    l.(pending := l.pending[id := l.clones],
       clones := l.clones + 1,
       filed := l.filed[l.clones := id],
       lost := if id in l.pending then l.lost + {l.pending[id]} else l.lost)
  }

  function Answer<Id>(l: Ledger<Id>, id: Id): Ledger<Id>
    requires id in l.pending
  {
    l.(pending := l.pending - {id}, answered := l.answered + {l.pending[id]})
  }

  ghost predicate IsPending<Id>(l: Ledger<Id>, q: Clone) {
    q in l.filed && l.filed[q] in l.pending && l.pending[l.filed[q]] == q
  }

  /** A later clone was filed under the same id. */
  ghost predicate Overtaken<Id>(filed: map<Clone, Id>, q: Clone) {
    q in filed && exists r :: r in filed && r > q && filed[r] == filed[q]
  }

  /** What is pending was filed under that id; the ids of clones are below the count. */
  ghost predicate Filing<Id(!new)>(l: Ledger<Id>) {
    && (forall id :: id in l.pending ==> l.pending[id] in l.filed && l.filed[l.pending[id]] == id)
    && (forall q :: q in l.filed ==> q < l.clones)
  }

  /** Every clone is exactly one of pending, answered and lost; and so the numbers add up. */
  ghost predicate Partition<Id(!new)>(l: Ledger<Id>) {
    && (forall q: Clone :: q < l.clones <==> IsPending(l, q) || q in l.answered || q in l.lost)
    && (forall q :: IsPending(l, q) ==> q !in l.answered && q !in l.lost)
    && (forall q :: q in l.answered ==> q in l.filed && q !in l.lost)
    && |l.answered| + |l.pending| + |l.lost| == l.clones
  }

  /** A clone is lost when it could not be read, or when it was overtaken while pending; never otherwise. */
  ghost predicate Losses<Id(!new)>(l: Ledger<Id>) {
    forall q: Clone :: q in l.lost <==> q < l.clones && q !in l.answered && (q in l.filed ==> Overtaken(l.filed, q))
  }

  ghost predicate Inv<Id(!new)>(l: Ledger<Id>) {
    Filing(l) && Partition(l) && Losses(l)
  }

  lemma UnreadLosses<Id(!new)>(l: Ledger<Id>)
    requires Losses(l) && l.clones !in l.filed && l.clones !in l.answered
    ensures Losses(Unread(l))
  {
  }

  lemma UnreadPartition<Id(!new)>(l: Ledger<Id>)
    requires Partition(l) && Filing(l)
    ensures Partition(Unread(l))
  {
    var m := Unread(l);
    assert l.clones !in l.lost;
    assert |m.lost| == |l.lost| + 1;
    forall q: Clone
      ensures IsPending(m, q) <==> IsPending(l, q)
    {
    }
    forall q: Clone
      ensures q < m.clones <==> IsPending(m, q) || q in m.answered || q in m.lost
    {
      if q == l.clones {} else {}
    }
  }

  lemma UnreadKeeps<Id(!new)>(l: Ledger<Id>)
    requires Inv(l)
    ensures Inv(Unread(l))
  {
    assert l.clones !in l.filed && l.clones !in l.answered;
    UnreadLosses(l);
    UnreadPartition(l);
  }

  lemma FileOthers<Id(!new)>(l: Ledger<Id>, id: Id)
    requires Filing(l)
    ensures var m := File(l, id);
            && (forall q :: IsPending(m, q) <==> q == l.clones || (IsPending(l, q) && l.filed[q] != id))
            && (forall q :: Overtaken(m.filed, q) <==> Overtaken(l.filed, q) || (q in l.filed && l.filed[q] == id))
  {
    var m := File(l, id);
    forall q
      ensures Overtaken(m.filed, q) <==> Overtaken(l.filed, q) || (q in l.filed && l.filed[q] == id)
    {
      if Overtaken(l.filed, q) {
        var r :| r in l.filed && r > q && l.filed[r] == l.filed[q];
        assert r in m.filed && m.filed[r] == m.filed[q];
      }
      if q in l.filed && l.filed[q] == id {
        assert l.clones in m.filed && l.clones > q && m.filed[l.clones] == m.filed[q];
      }
    }
  }

  lemma FileKeeps<Id(!new)>(l: Ledger<Id>, id: Id)
    requires Inv(l)
    ensures Inv(File(l, id))
  {
    var m := File(l, id);
    FileOthers(l, id);
    if id in l.pending {
      assert IsPending(l, l.pending[id]);
      assert |m.lost| == |l.lost| + 1;
    }
    forall q: Clone
      ensures q < m.clones <==> IsPending(m, q) || q in m.answered || q in m.lost
      ensures IsPending(m, q) ==> q !in m.answered && q !in m.lost
      ensures q in m.lost <==> q < m.clones && q !in m.answered && (q in m.filed ==> Overtaken(m.filed, q))
    {
      if q == l.clones {
      } else if id in l.pending && q == l.pending[id] {
      } else {
      }
    }
  }

  lemma AnswerKeeps<Id(!new)>(l: Ledger<Id>, id: Id)
    requires Inv(l) && id in l.pending
    ensures Inv(Answer(l, id))
  {
    var m, p := Answer(l, id), l.pending[id];
    assert IsPending(l, p);
    assert |m.answered| == |l.answered| + 1;
    forall q: Clone
      ensures IsPending(m, q) <==> IsPending(l, q) && q != p
    {
    }
    forall q: Clone
      ensures q < m.clones <==> IsPending(m, q) || q in m.answered || q in m.lost
      ensures q in m.lost <==> q < m.clones && q !in m.answered && (q in m.filed ==> Overtaken(m.filed, q))
    {
      if q == p {} else {}
    }
  }
}
