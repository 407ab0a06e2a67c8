/**
 * The application shell: the single owner of the session, the catalog handed
 * to the calculator and the list of saved quotes (newest first). Children
 * change this state only through the shell's handlers.
 */
module Shell {
  import opened Api

  /** The three mutually exclusive things the shell can render. */
  datatype Screen = SessionPlaceholder | LoginScreen | MainScreen

  /** Body of a successful "who am I" response; its `user` may be missing. */
  datatype SessionInfo = SessionInfo(user: Option<User>)

  /** View selection: nothing but the placeholder while the session is being
      resolved, the login form when resolved without a user, the full app
      otherwise. */
  function SelectScreen(checkingSession: bool, user: Option<User>): (s: Screen)
    ensures checkingSession ==> s == SessionPlaceholder
    ensures s == LoginScreen <==> !checkingSession && user.None?
    ensures s == MainScreen <==> !checkingSession && user.Some?
  {
    if checkingSession then SessionPlaceholder
    else if user.None? then LoginScreen
    else MainScreen
  }

  /** A quote created by the calculator goes in front of the list. */
  function Prepend(nuevo: Budget, prev: seq<Budget>): (r: seq<Budget>)
    ensures |r| == |prev| + 1
    ensures r[0] == nuevo && r[1..] == prev
  {
    [nuevo] + prev
  }

  /** The list without the quotes whose id is `id`, in their original order. */
  function RemoveById(prev: seq<Budget>, id: string): (r: seq<Budget>)
    ensures |r| <= |prev|
    ensures forall b :: b in r ==> b in prev && b.id != id
  {
    if prev == [] then []
    else if prev[0].id != id then [prev[0]] + RemoveById(prev[1..], id)
    else RemoveById(prev[1..], id)
  }

  /** Every quote with another id keeps its number of occurrences; none with `id` is left. */
  lemma {:induction false} RemoveByIdCounts(prev: seq<Budget>, id: string, b: Budget)
    ensures multiset(RemoveById(prev, id))[b] == if b.id == id then 0 else multiset(prev)[b]
  {
    if prev != [] {
      RemoveByIdCounts(prev[1..], id, b);
      assert prev == [prev[0]] + prev[1..];
    }
  }

  /** Filtering distributes over concatenation: the survivors keep their relative order. */
  lemma {:induction false} RemoveByIdAppend(a: seq<Budget>, b: seq<Budget>, id: string)
    ensures RemoveById(a + b, id) == RemoveById(a, id) + RemoveById(b, id)
  {
    if a == [] {
      assert a + b == b;
    } else {
      assert (a + b)[1..] == a[1..] + b;
      RemoveByIdAppend(a[1..], b, id);
    }
  }

  /** Removing an id that no quote carries changes nothing. */
  lemma {:induction false} RemoveByIdAbsent(prev: seq<Budget>, id: string)
    requires forall b :: b in prev ==> b.id != id
    ensures RemoveById(prev, id) == prev
  {
    if prev != [] {
      assert prev[0] in prev;
      assert forall b :: b in prev[1..] ==> b in prev;
      RemoveByIdAbsent(prev[1..], id);
      assert prev == [prev[0]] + prev[1..];
    }
  }

  /** Deleting the same id twice is the same as deleting it once. */
  lemma RemoveByIdIdempotent(prev: seq<Budget>, id: string)
    ensures RemoveById(RemoveById(prev, id), id) == RemoveById(prev, id)
  {
    RemoveByIdAbsent(RemoveById(prev, id), id);
  }

  /** Saving a quote and then deleting it by the id the backend assigned
      restores the list, when that id was new to the list. */
  lemma PrependThenRemove(nuevo: Budget, prev: seq<Budget>)
    requires forall b :: b in prev ==> b.id != nuevo.id
    ensures RemoveById(Prepend(nuevo, prev), nuevo.id) == prev
  {
    assert Prepend(nuevo, prev)[1..] == prev;
    RemoveByIdAbsent(prev, nuevo.id);
  }

  class App {
    var user: Option<User>
    var checkingSession: bool
    var glassTypes: seq<GlassType>
    var budgets: seq<Budget>

    /** The state before any effect has run. */
    constructor ()
      ensures user == None && checkingSession
      ensures glassTypes == [] && budgets == []
    {
      user := None;
      checkingSession := true;
      glassTypes := [];
      budgets := [];
    }

    function CurrentScreen(): (s: Screen)
      reads this
    {
      SelectScreen(checkingSession, user)
    }

    /** The mount effect: ask the backend who is logged in; any failure means
        nobody. Either way the resolving phase ends. */
    method CheckSession(me: Outcome<SessionInfo>) returns (req: Request)
      modifies this`user, this`checkingSession
      ensures req == Request(GET, MePath, NoBody)
      ensures user == (if me.Success? then me.data.user else None)
      ensures !checkingSession && CurrentScreen() != SessionPlaceholder
    {
      req := Request(GET, MePath, NoBody);
      match me {
        case Success(data) => user := data.user;
        case Failure(_) => user := None;
      }
      checkingSession := false;
    }

    /** The effect keyed on `user`: with nobody logged in it asks for nothing;
        otherwise a loaded list replaces the quotes wholesale and a failed load
        keeps them. */
    method LoadBudgets(list: Outcome<seq<Budget>>) returns (req: Option<Request>)
      modifies this`budgets
      ensures user.None? ==> req == None && budgets == old(budgets)
      ensures user.Some? ==> req == Some(Request(GET, BudgetsPath, NoBody))
      ensures user.Some? && list.Success? ==> budgets == list.data
      ensures user.Some? && list.Failure? ==> budgets == old(budgets)
    {
      if user.None? {
        return None;
      }
      req := Some(Request(GET, BudgetsPath, NoBody));
      match list {
        case Success(data) => budgets := data;
        case Failure(_) =>
      }
    }

    /** The login form reports the identity the backend returned. */
    method SetUser(u: Option<User>)
      modifies this`user
      ensures user == u
    {
      user := u;
    }

    /** Logout is best effort: whatever the backend answers, the session and
        the quotes are cleared; the catalog is left alone. */
    method Logout(answer: Outcome<()>) returns (req: Request)
      modifies this`user, this`budgets
      ensures req == Request(POST, LogoutPath, NoBody)
      ensures user == None && budgets == []
      ensures !checkingSession ==> CurrentScreen() == LoginScreen
    {
      req := Request(POST, LogoutPath, NoBody);
      user := None;
      budgets := [];
    }

    method NewBudget(nuevo: Budget)
      modifies this`budgets
      ensures budgets == Prepend(nuevo, old(budgets))
    {
      budgets := Prepend(nuevo, budgets);
    }

    method DeleteBudget(id: string)
      modifies this`budgets
      ensures budgets == RemoveById(old(budgets), id)
    {
      budgets := RemoveById(budgets, id);
    }

    /** The catalog manager reports a freshly loaded list; it replaces the
        catalog wholesale. */
    method SetGlassTypes(list: seq<GlassType>)
      modifies this`glassTypes
      ensures glassTypes == list
    {
      glassTypes := list;
    }
  }
}
