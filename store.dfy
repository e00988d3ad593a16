/**
 * The transactions collection (`tbkWebpayPlusTrx`) as an in-memory sequence of
 * records in insertion order, with the two queries the handlers count by.
 */
module Store {
  import opened Wrappers

  /** The name of the collection the settlement records are kept in. */
  const TransactionsCollection := "tbkWebpayPlusTrx"

  /**
   * A committed transaction as `authorizeTrx` stores it. `createdAt` holds the
   * gateway's `transaction_date` text; the document id is left out.
   */
  datatype Transaction = Transaction(
    buyOrder: string,
    sessionId: string,
    authCode: string,
    paymentType: string,
    amount: int,
    shares: int,
    sharesAmount: Option<int>,
    tbkStatus: string,
    tbkVci: string,
    cardDigits: Option<string>,
    createdAt: string)

  /** The two filters the handlers pass to `count`. */
  datatype Query =
    | ByOrder(buyOrder: string)
    | ByOrderAndAuth(buyOrder: string, authCode: string)

  predicate Matches(t: Transaction, q: Query) {
    match q
    case ByOrder(b) => t.buyOrder == b
    case ByOrderAndAuth(b, a) => t.buyOrder == b && t.authCode == a
  }

  /** The number of records that match `q`: the collection's `count(q)`. */
  function Count(s: seq<Transaction>, q: Query): nat {
    if s == [] then 0
    else Count(s[..|s| - 1], q) + (if Matches(s[|s| - 1], q) then 1 else 0)
  }

  /** A count is positive exactly when some record matches. */
  lemma {:induction false} CountPositiveIff(s: seq<Transaction>, q: Query)
    ensures Count(s, q) > 0 <==> exists i :: 0 <= i < |s| && Matches(s[i], q)
  {
    if s != [] {
      var init := s[..|s| - 1];
      CountPositiveIff(init, q);
      if exists i :: 0 <= i < |init| && Matches(init[i], q) {
        var i :| 0 <= i < |init| && Matches(init[i], q);
        assert s[i] == init[i];
      }
      if exists i :: 0 <= i < |s| && Matches(s[i], q) {
        var i :| 0 <= i < |s| && Matches(s[i], q);
        if i < |init| {
          assert init[i] == s[i];
        }
      }
    }
  }

  /** Appending a record adds one to the counts it matches and leaves the others. */
  lemma CountAppend(s: seq<Transaction>, t: Transaction, q: Query)
    ensures Count(s + [t], q) == Count(s, q) + (if Matches(t, q) then 1 else 0)
  {
  }

  /** No two records share a `buyOrder`: the at-most-once invariant. */
  ghost predicate Unique(s: seq<Transaction>) {
    forall i, j :: 0 <= i < j < |s| ==> s[i].buyOrder != s[j].buyOrder
  }

  /** Inserting a record whose `buyOrder` counts zero keeps the collection unique. */
  lemma UniqueInsert(s: seq<Transaction>, t: Transaction)
    requires Unique(s)
    requires Count(s, ByOrder(t.buyOrder)) == 0
    ensures Unique(s + [t])
  {
    CountPositiveIff(s, ByOrder(t.buyOrder));
    forall i, j | 0 <= i < j < |s + [t]|
      ensures (s + [t])[i].buyOrder != (s + [t])[j].buyOrder
    {
      if j == |s| {
        assert !Matches(s[i], ByOrder(t.buyOrder));
      }
    }
  }

  /** In a unique collection every `buyOrder` is counted at most once. */
  lemma {:induction false} UniqueCountAtMostOne(s: seq<Transaction>, b: string)
    requires Unique(s)
    ensures Count(s, ByOrder(b)) <= 1
  {
    if s != [] {
      var init := s[..|s| - 1];
      assert Unique(init);
      UniqueCountAtMostOne(init, b);
      if s[|s| - 1].buyOrder == b {
        CountPositiveIff(init, ByOrder(b));
      }
    }
  }

  /** A record matching an order and an authorization code is a record of that order. */
  lemma {:induction false} AuthMatchIsOrderMatch(s: seq<Transaction>, b: string, a: string)
    ensures Count(s, ByOrderAndAuth(b, a)) <= Count(s, ByOrder(b))
  {
    if s != [] {
      AuthMatchIsOrderMatch(s[..|s| - 1], b, a);
    }
  }
}
