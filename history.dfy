/** Conversation turns and the list operations `index.js` applies to a history. */
module History {
  datatype Role = User | Model

  /** One stored entry `{ role, parts: [{ text }] }`, reduced to its role and its text. */
  datatype Turn = Turn(role: Role, text: string)

  /**
   * A history made of whole (user, model) pairs: empty, or a paired history followed by
   * one user turn and then one model turn.
   */
  predicate WellPaired(h: seq<Turn>)
  {
    |h| % 2 == 0 && forall i :: 0 <= i < |h| ==> h[i].role == (if i % 2 == 0 then User else Model)
  }

  /**
   * `popLastMessages`: `count` calls of `pop`, each removing the last element
   * of a non-empty list and doing nothing on an empty one.
   */
  method PopLastMessages<T>(arr: seq<T>, count: nat := 2) returns (r: seq<T>)
    ensures |r| == if |arr| >= count then |arr| - count else 0
    ensures r == arr[..|r|]
  {
    r := arr;
    for i := 0 to count
      invariant |r| == if |arr| >= i then |arr| - i else 0
      invariant r == arr[..|r|]
    {
      if |r| > 0 {
        r := r[..|r| - 1];
      }
    }
  }

  /** The two `db.push` calls after a model answer: the user's input, then the answer. */
  function AppendPair(h: seq<Turn>, input: string, response: string): (r: seq<Turn>)
    ensures |r| == |h| + 2 && r[..|h|] == h
    ensures WellPaired(r) <==> WellPaired(h)
  {
    var r := h + [Turn(User, input), Turn(Model, response)];
    assert r[..|h|] == h;
    r
  }

  /** Removing the last pair of a paired history leaves a paired history, and the entry resent is the user's. */
  lemma DropPairKeepsPaired(h: seq<Turn>)
    requires WellPaired(h) && |h| >= 2
    ensures WellPaired(h[..|h| - 2])
    ensures h[|h| - 2].role == User && h[|h| - 1].role == Model
  {
  }

  /** Dropping a pair from both a prefix and the sequence it prefixes keeps the prefix relation. */
  lemma DropPairKeepsPrefix(m: seq<Turn>, d: seq<Turn>)
    requires m <= d && |m| >= 2 && |d| >= 2
    ensures m[..|m| - 2] <= d[..|d| - 2]
  {
  }
}
