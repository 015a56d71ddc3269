/**
 * The database the handlers share: three tables that SQL statements update in
 * place, and the generator of fresh identifiers.
 */
module Store {
  import opened Models

  class Database {
    var feeds: seq<Feed>
    var articles: seq<Article>
    var summaries: seq<Summary>
    /** The next identifier the generator hands out. */
    var nextId: nat

    constructor ()
      ensures feeds == [] && articles == [] && summaries == [] && nextId == 0
      ensures Consistent(Snapshot())
    {
      feeds, articles, summaries, nextId := [], [], [], 0;
    }

    /** The tables' current contents. */
    function Snapshot(): Tables
      reads this
    {
      Tables(feeds, articles, summaries, nextId)
    }

    /** Hands out a fresh identifier. */
    method FreshId() returns (id: Uuid)
      modifies this`nextId
      ensures id == old(nextId) && nextId == old(nextId) + 1
    {
      id := nextId;
      nextId := nextId + 1;
    }
  }
}
