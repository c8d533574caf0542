/** The ids of the nudges the user has dismissed: an append-only list kept
    free of duplicates, loaded from the browser's saved value at start. */
module DismissedNudges {
  import opened Prelude

  predicate Distinct(ids: seq<string>)
  {
    forall i, j :: 0 <= i < j < |ids| ==> ids[i] != ids[j]
  }

  /** The initial list: the saved text parsed as JSON (`parse` stands for
      `JSON.parse` and yields `None` when it throws); no saved value or an
      empty one (falsy) gives the empty list, and so does a parse error. */
  function InitialDismissed(stored: Option<string>, parse: string -> Option<seq<string>>): (ids: seq<string>)
    ensures stored.None? || stored.value == [] ==> ids == []
    ensures stored.Some? && parse(stored.value).None? ==> ids == []
    ensures stored.Some? && stored.value != [] && parse(stored.value).Some? ==> ids == parse(stored.value).value
  {
    if stored.None? || stored.value == [] then []
    else match parse(stored.value)
      case None => []
      case Some(ids) => ids
  }

  /** The update `dismissNudge` applies to the list. */
  function Dismissed(ids: seq<string>, id: string): (r: seq<string>)
    ensures id in r
    ensures forall x :: x in r <==> x in ids || x == id
  {
    if id in ids then ids else ids + [id]
  }

  /** Dismissing an id already present changes nothing, so dismissing twice
      is dismissing once. */
  lemma DismissIdempotent(ids: seq<string>, id: string)
    ensures id in ids ==> Dismissed(ids, id) == ids
    ensures Dismissed(Dismissed(ids, id), id) == Dismissed(ids, id)
  {
  }

  /** A new id goes at the end behind all earlier ids, and the list grows by
      at most one. */
  lemma DismissAppends(ids: seq<string>, id: string)
    ensures id !in ids ==> Dismissed(ids, id) == ids + [id]
    ensures Dismissed(ids, id)[..|ids|] == ids
    ensures |ids| <= |Dismissed(ids, id)| <= |ids| + 1
  {
  }

  /** A list without duplicates keeps none. */
  lemma DismissKeepsDistinct(ids: seq<string>, id: string)
    requires Distinct(ids)
    ensures Distinct(Dismissed(ids, id))
  {
    if id !in ids {
      var r := ids + [id];
      forall i, j | 0 <= i < j < |r| ensures r[i] != r[j] {
        if j == |ids| {
          assert r[i] == ids[i];
        }
      }
    }
  }

  /** The dismissed-nudges provider's state. */
  class DismissedNudgesProvider {
    var dismissed: seq<string>

    constructor (stored: Option<string>, parse: string -> Option<seq<string>>)
      ensures dismissed == InitialDismissed(stored, parse)
    {
      dismissed := InitialDismissed(stored, parse);
    }

    /** `dismissNudge`. */
    method DismissNudge(id: string)
      modifies this
      ensures dismissed == Dismissed(old(dismissed), id)
      ensures old(Distinct(dismissed)) ==> Distinct(dismissed)
    {
      if Distinct(dismissed) {
        DismissKeepsDistinct(dismissed, id);
      }
      if id !in dismissed {
        dismissed := dismissed + [id];
      }
    }
  }
}
