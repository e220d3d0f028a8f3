/** The ambient transaction of a durable command: whose connection may be borrowed, and what waits for its commit. */
module CommandTransaction {
  import opened Options

  datatype Transaction = Transaction(pool: nat, afterCommit: seq<string>)

  /** What one request carries along: at most one transaction. `ran` lists the effects already run. */
  class RequestContext {
    var store: Option<Transaction>
    var ran: seq<string>

    constructor ()
      ensures store.None? && ran == []
    {
      store, ran := None, [];
    }

    method Enter(pool: nat)
      requires store.None?
      modifies this`store
      ensures store == Some(Transaction(pool, []))
    {
      store := Some(Transaction(pool, []));
    }

    /** Inside a command an effect waits, outside it runs at once. */
    method AfterCommandCommit(effect: string)
      modifies this
      ensures if old(store).Some?
              then store == Some(old(store).value.(afterCommit := old(store).value.afterCommit + [effect])) && ran == old(ran)
              else store.None? && ran == old(ran) + [effect]
    {
      if store.Some? {
        store := Some(store.value.(afterCommit := store.value.afterCommit + [effect]));
      } else {
        ran := ran + [effect];
      }
    }

    /** The effects a command asks for while it is applied. */
    method Apply(effects: seq<string>)
      modifies this
      ensures if old(store).Some?
              then store == Some(old(store).value.(afterCommit := old(store).value.afterCommit + effects)) && ran == old(ran)
              else store.None? && ran == old(ran) + effects
    {
      ghost var before := if store.Some? then store.value.afterCommit else ran;
      for i := 0 to |effects|
        invariant store.Some? == old(store).Some?
        invariant store.Some? ==> store.value == old(store).value.(afterCommit := before + effects[..i]) && ran == old(ran)
        invariant store.None? ==> ran == before + effects[..i]
      {
        assert before + effects[..i + 1] == before + effects[..i] + [effects[i]];
        AfterCommandCommit(effects[i]);
      }
      assert effects[..|effects|] == effects;
    }
  }
}
