/** The example counter store (src/store/useExampleStore.ts): a count, an
    optional contact and a loading flag, each action overwriting its own
    fields and nothing else. */
module Example {
  import opened Common

  /** `{ name: string; email: string }` */
  datatype Contact = Contact(name: string, email: string)

  class ExampleStore {
    var count: int
    var user: Option<Contact>
    var isLoading: bool

    /** The store as the three fields describe it, for comparing states. */
    predicate IsInitial()
      reads this
    {
      count == 0 && user == None && !isLoading
    }

    /** Count 0, no user, not loading. */
    constructor ()
      ensures IsInitial()
    {
      count := 0;
      user := None;
      isLoading := false;
    }

    /** `increment()`: one more, with no upper bound. */
    method Increment()
      modifies this
      ensures count == old(count) + 1
      ensures user == old(user) && isLoading == old(isLoading)
    {
      count := count + 1;
    }

    /** `decrement()`: one less, with no lower bound; the count may go negative. */
    method Decrement()
      modifies this
      ensures count == old(count) - 1
      ensures user == old(user) && isLoading == old(isLoading)
    {
      count := count - 1;
    }

    /** `setUser(user)`, where None is `null`. */
    method SetUser(u: Option<Contact>)
      modifies this
      ensures user == u
      ensures count == old(count) && isLoading == old(isLoading)
    {
      user := u;
    }

    /** `setLoading(loading)` */
    method SetLoading(loading: bool)
      modifies this
      ensures isLoading == loading
      ensures count == old(count) && user == old(user)
    {
      isLoading := loading;
    }

    /** `reset()`: back to exactly the initial state. */
    method Reset()
      modifies this
      ensures IsInitial()
    {
      count := 0;
      user := None;
      isLoading := false;
    }
  }

  /** On a store holding `u` and `loading`, increment then decrement and
      decrement then increment leave every field as it was; reset after that
      activity gives the initial store back. */
  method RoundTrips(u: Option<Contact>, loading: bool)
    returns (afterUpDown: int, afterDownUp: int, userKept: Option<Contact>, loadingKept: bool, resetCount: int, resetUser: Option<Contact>)
    ensures afterUpDown == 0 && afterDownUp == 0 && userKept == u && loadingKept == loading
    ensures resetCount == 0 && resetUser == None
  {
    var store := new ExampleStore();
    store.SetUser(u);
    store.SetLoading(loading);
    store.Increment();
    store.Decrement();
    afterUpDown := store.count;
    store.Decrement();
    store.Increment();
    afterDownUp := store.count;
    userKept := store.user;
    loadingKept := store.isLoading;
    store.Reset();
    resetCount := store.count;
    resetUser := store.user;
  }

  /** Decrementing a fresh store twice reaches -2: there is no floor at zero. */
  method NoFloorAtZero() returns (count: int)
    ensures count == -2
  {
    var store := new ExampleStore();
    store.Decrement();
    store.Decrement();
    count := store.count;
  }
}
