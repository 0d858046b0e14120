/** Import, export and deletion of users' fragment subscriptions
    (SubscribedFragmentImporterExporter). The subscription DAO is a table of
    rows in DAO order, at most one per (subscriber, fragment owner) pair, each with
    an `active` flag; the user identity store is the set of known user names. A
    person is identified by their user name. */
module SubscribedFragments {
  import opened Wrappers

  type Username = string

  /** One IUserFragmentSubscription row: `user` subscribes to the fragment owned by
      `fragmentOwner`. */
  datatype Subscription = Subscription(user: Username, fragmentOwner: Username, active: bool)

  /** The exchange document: a user name and the owners of the fragments it subscribes to. */
  datatype ExternalSubscribedFragments =
    ExternalSubscribedFragments(username: Username, subscribedFragments: seq<Username>)

  /** SimpleStringPortalData(id, null, null): one entry of the export listing. */
  datatype PortalData = SimpleStringPortalData(dataId: string)

  /** The RuntimeException "Unrecognized user ..." thrown by getPerson. */
  datatype IoError = UnrecognizedUser(username: Username)

  // ---------------------------------------------------------------------------
  // The subscription table
  // ---------------------------------------------------------------------------

  /** The DAO keeps at most one row per (subscriber, fragment owner). */
  ghost predicate UniqueKeys(subs: seq<Subscription>) {
    forall i, j :: 0 <= i < j < |subs| ==>
      subs[i].user != subs[j].user || subs[i].fragmentOwner != subs[j].fragmentOwner
  }

  /** getUserFragmentInfo(person, fragmentOwner) != null */
  predicate HasSubscription(subs: seq<Subscription>, user: Username, owner: Username) {
    exists k :: 0 <= k < |subs| && subs[k].user == user && subs[k].fragmentOwner == owner
  }

  /** getUserFragmentInfo(person): the user's rows, active or not, in DAO order. */
  function RowsOf(subs: seq<Subscription>, user: Username): (r: seq<Subscription>)
    decreases |subs|
  {
    if subs == [] then []
    else RowsOf(subs[..|subs| - 1], user)
         + (if subs[|subs| - 1].user == user then [subs[|subs| - 1]] else [])
  }

  /** The rows of every other user, in DAO order: what deleting a user's rows leaves. */
  function OthersOf(subs: seq<Subscription>, user: Username): (r: seq<Subscription>)
    decreases |subs|
  {
    if subs == [] then []
    else OthersOf(subs[..|subs| - 1], user)
         + (if subs[|subs| - 1].user != user then [subs[|subs| - 1]] else [])
  }

  /** The table after deleteUserFragmentInfo has removed each row of `gone`. */
  function DropRows(subs: seq<Subscription>, gone: seq<Subscription>): (r: seq<Subscription>)
    decreases |subs|
  {
    if subs == [] then []
    else DropRows(subs[..|subs| - 1], gone)
         + (if subs[|subs| - 1] !in gone then [subs[|subs| - 1]] else [])
  }

  lemma {:induction false} RowsOfMembers(subs: seq<Subscription>, user: Username)
    ensures forall x :: x in RowsOf(subs, user) <==> x in subs && x.user == user
    decreases |subs|
  {
    if subs != [] {
      var init := subs[..|subs| - 1];
      RowsOfMembers(init, user);
      assert subs == init + [subs[|subs| - 1]];
    }
  }

  lemma {:induction false} OthersOfMembers(subs: seq<Subscription>, user: Username)
    ensures forall x :: x in OthersOf(subs, user) <==> x in subs && x.user != user
    decreases |subs|
  {
    if subs != [] {
      var init := subs[..|subs| - 1];
      OthersOfMembers(init, user);
      assert subs == init + [subs[|subs| - 1]];
    }
  }

  /** Removing the rows of `a` and then those of `b` removes the rows of `a + b`. */
  lemma {:induction false} DropRowsTwice(subs: seq<Subscription>, a: seq<Subscription>, b: seq<Subscription>)
    ensures DropRows(DropRows(subs, a), b) == DropRows(subs, a + b)
    decreases |subs|
  {
    if subs != [] {
      var init, last := subs[..|subs| - 1], subs[|subs| - 1];
      DropRowsTwice(init, a, b);
      var d := DropRows(init, a);
      var tail := if last !in a then [last] else [];
      assert DropRows(subs, a) == d + tail;
      if last !in a {
        assert (d + tail)[..|d + tail| - 1] == d;
      } else {
        assert d + tail == d;
      }
    }
  }

  lemma {:induction false} DropNothing(subs: seq<Subscription>)
    ensures DropRows(subs, []) == subs
    decreases |subs|
  {
    if subs != [] {
      DropNothing(subs[..|subs| - 1]);
    }
  }

  /** One more iteration of the deletion loop. */
  lemma DropStep(subs: seq<Subscription>, rows: seq<Subscription>, i: nat)
    requires i < |rows|
    ensures DropRows(DropRows(subs, rows[..i]), [rows[i]]) == DropRows(subs, rows[..i + 1])
  {
    DropRowsTwice(subs, rows[..i], [rows[i]]);
    assert rows[..i] + [rows[i]] == rows[..i + 1];
  }

  /** Dropping exactly the members of `subs` that belong to `user` keeps the others. */
  lemma {:induction false} DropOwnRows(subs: seq<Subscription>, gone: seq<Subscription>, user: Username)
    requires forall x :: x in subs ==> (x in gone <==> x.user == user)
    ensures DropRows(subs, gone) == OthersOf(subs, user)
    decreases |subs|
  {
    if subs != [] {
      DropOwnRows(subs[..|subs| - 1], gone, user);
    }
  }

  // ---------------------------------------------------------------------------
  // Looking up people
  // ---------------------------------------------------------------------------

  /** getPerson(username, create): a known user is found without creating; an
      unknown one is an error unless creation is asked for and errorOnMissingUser
      is off, in which case the identity store creates it. */
  function PersonLookup(users: set<Username>, errorOnMissingUser: bool, username: Username, create: bool)
    : (r: Result<Username, IoError>)
    ensures r.Success? ==> r.value == username
    ensures r.Failure? <==> username !in users && (!create || errorOnMissingUser)
    ensures r.Failure? ==> r.error == UnrecognizedUser(username)
  {
    if username in users then Success(username)
    else if !create || errorOnMissingUser then Failure(UnrecognizedUser(username))
    else Success(username)
  }

  /** The first listed fragment owner the identity store does not know, if any. */
  function FirstUnknown(owners: seq<Username>, users: set<Username>): (r: Option<Username>)
    ensures r.None? <==> forall k :: 0 <= k < |owners| ==> owners[k] in users
    ensures r.Some? ==> exists k :: 0 <= k < |owners| && owners[k] == r.value && owners[k] !in users &&
                                    forall j :: 0 <= j < k ==> owners[j] in users
  {
    if owners == [] then None
    else if owners[0] !in users then Some(owners[0])
    else
      var rest := FirstUnknown(owners[1..], users);
      assert forall k :: 1 <= k < |owners| ==> owners[k] == owners[1..][k - 1];
      rest
  }

  // ---------------------------------------------------------------------------
  // Import
  // ---------------------------------------------------------------------------

  /** createUserFragmentInfo when getUserFragmentInfo(person, owner) is null. */
  function AddIfAbsent(subs: seq<Subscription>, user: Username, owner: Username): seq<Subscription> {
    if HasSubscription(subs, user, owner) then subs else subs + [Subscription(user, owner, true)]
  }

  /** The table after the import loop has handled each listed owner in turn. */
  function ImportRows(subs: seq<Subscription>, user: Username, owners: seq<Username>): seq<Subscription>
    decreases |owners|
  {
    if owners == [] then subs
    else AddIfAbsent(ImportRows(subs, user, owners[..|owners| - 1]), user, owners[|owners| - 1])
  }

  /** importData as one transaction: the identity store and table it commits, or the
      error that rolls it back. */
  function ImportSpec(users: set<Username>, subs: seq<Subscription>, errorOnMissingUser: bool,
                      data: ExternalSubscribedFragments)
    : Result<(set<Username>, seq<Subscription>), IoError>
  {
    match PersonLookup(users, errorOnMissingUser, data.username, true)
    case Failure(e) => Failure(e)
    case Success(person) =>
      var users' := users + {person};
      match FirstUnknown(data.subscribedFragments, users')
      case Some(owner) => Failure(UnrecognizedUser(owner))
      case None => Success((users', ImportRows(subs, person, data.subscribedFragments)))
  }

  /** Import only appends: the old table is a prefix of the new one, and every
      appended row is an active subscription of `user` to a listed owner. */
  lemma {:induction false} ImportRowsExtends(subs: seq<Subscription>, user: Username, owners: seq<Username>)
    ensures var r := ImportRows(subs, user, owners);
      && |subs| <= |r| && r[..|subs|] == subs
      && forall k :: |subs| <= k < |r| ==> r[k].user == user && r[k].active && r[k].fragmentOwner in owners
    decreases |owners|
  {
    if owners != [] {
      var init := owners[..|owners| - 1];
      ImportRowsExtends(subs, user, init);
      var p := ImportRows(subs, user, init);
      var r := ImportRows(subs, user, owners);
      assert forall o :: o in init ==> o in owners;
      if !HasSubscription(p, user, owners[|owners| - 1]) {
        assert r == p + [Subscription(user, owners[|owners| - 1], true)];
        assert r[..|subs|] == p[..|subs|];
      }
    }
  }

  /** After the import every listed owner has a row for `user`. */
  lemma {:induction false} ImportRowsCovers(subs: seq<Subscription>, user: Username, owners: seq<Username>)
    ensures forall o :: o in owners ==> HasSubscription(ImportRows(subs, user, owners), user, o)
    decreases |owners|
  {
    if owners != [] {
      var init, last := owners[..|owners| - 1], owners[|owners| - 1];
      ImportRowsCovers(subs, user, init);
      var p := ImportRows(subs, user, init);
      var r := ImportRows(subs, user, owners);
      assert r[..|p|] == p;
      forall o | o in owners ensures HasSubscription(r, user, o) {
        if o == last {
          if !HasSubscription(p, user, last) {
            assert r[|p|] == Subscription(user, last, true);
          }
        } else {
          assert o in init;
          var k :| 0 <= k < |p| && p[k].user == user && p[k].fragmentOwner == o;
          assert r[k] == p[k];
        }
      }
    }
  }

  /** Import adds no row whose key is already present, so uniqueness is kept. */
  lemma {:induction false} ImportRowsUnique(subs: seq<Subscription>, user: Username, owners: seq<Username>)
    requires UniqueKeys(subs)
    ensures UniqueKeys(ImportRows(subs, user, owners))
    decreases |owners|
  {
    if owners != [] {
      var init, last := owners[..|owners| - 1], owners[|owners| - 1];
      ImportRowsUnique(subs, user, init);
      var p := ImportRows(subs, user, init);
      if !HasSubscription(p, user, last) {
        var r := p + [Subscription(user, last, true)];
        forall i, j | 0 <= i < j < |r|
          ensures r[i].user != r[j].user || r[i].fragmentOwner != r[j].fragmentOwner
        {
          if j == |p| {
            assert r[i] == p[i];
          } else {
            assert r[i] == p[i] && r[j] == p[j];
          }
        }
      }
    }
  }

  /** When every listed owner already has a row, the import changes nothing. */
  lemma {:induction false} ImportRowsNoop(subs: seq<Subscription>, user: Username, owners: seq<Username>)
    requires forall o :: o in owners ==> HasSubscription(subs, user, o)
    ensures ImportRows(subs, user, owners) == subs
    decreases |owners|
  {
    if owners != [] {
      var init := owners[..|owners| - 1];
      assert forall o :: o in init ==> o in owners;
      ImportRowsNoop(subs, user, init);
      assert owners[|owners| - 1] in owners;
    }
  }

  /** Importing the same document a second time changes nothing. */
  lemma ImportIdempotent(users: set<Username>, subs: seq<Subscription>, errorOnMissingUser: bool,
                         data: ExternalSubscribedFragments)
    requires ImportSpec(users, subs, errorOnMissingUser, data).Success?
    ensures var st := ImportSpec(users, subs, errorOnMissingUser, data).value;
      ImportSpec(st.0, st.1, errorOnMissingUser, data) == Success(st)
  {
    var st := ImportSpec(users, subs, errorOnMissingUser, data).value;
    ImportRowsCovers(subs, data.username, data.subscribedFragments);
    ImportRowsNoop(st.1, data.username, data.subscribedFragments);
  }

  /** A successful import leaves a row (subscriber, owner) for every listed owner,
      keeps every existing row where it was and unchanged, and adds only active
      rows of the importing user. */
  lemma ImportEstablishesSubscriptions(users: set<Username>, subs: seq<Subscription>,
                                       errorOnMissingUser: bool, data: ExternalSubscribedFragments)
    requires ImportSpec(users, subs, errorOnMissingUser, data).Success?
    ensures var st := ImportSpec(users, subs, errorOnMissingUser, data).value;
      && (forall o :: o in data.subscribedFragments ==> HasSubscription(st.1, data.username, o))
      && |subs| <= |st.1| && st.1[..|subs|] == subs
      && (forall k :: |subs| <= k < |st.1| ==>
            st.1[k].user == data.username && st.1[k].active && st.1[k].fragmentOwner in data.subscribedFragments)
  {
    ImportRowsCovers(subs, data.username, data.subscribedFragments);
    ImportRowsExtends(subs, data.username, data.subscribedFragments);
  }

  /** The import fails exactly when the importing user is unknown and may not be
      created, or when a listed fragment owner is unknown. */
  lemma ImportFailsOnUnknownUser(users: set<Username>, subs: seq<Subscription>,
                                 errorOnMissingUser: bool, data: ExternalSubscribedFragments)
    ensures var users' := users + {data.username};
      ImportSpec(users, subs, errorOnMissingUser, data).Failure? <==>
        (data.username !in users && errorOnMissingUser) ||
        (exists o :: o in data.subscribedFragments && o !in users')
  {
    var users' := users + {data.username};
    var f := FirstUnknown(data.subscribedFragments, users');
    if f.None? {
      assert forall o :: o in data.subscribedFragments ==> o in users';
    }
  }

  // ---------------------------------------------------------------------------
  // Export
  // ---------------------------------------------------------------------------

  /** The owners of the active rows among `rows`, in row order. */
  function ActiveOwners(rows: seq<Subscription>): seq<Username>
    decreases |rows|
  {
    if rows == [] then []
    else ActiveOwners(rows[..|rows| - 1])
         + (if rows[|rows| - 1].active then [rows[|rows| - 1].fragmentOwner] else [])
  }

  lemma {:induction false} ActiveOwnersMembers(rows: seq<Subscription>)
    ensures forall o :: o in ActiveOwners(rows) <==> exists x :: x in rows && x.active && x.fragmentOwner == o
    decreases |rows|
  {
    if rows != [] {
      var init := rows[..|rows| - 1];
      ActiveOwnersMembers(init);
      assert rows == init + [rows[|rows| - 1]];
    }
  }

  /** Any two owners are comparable. */
  ghost predicate Connex(le: (Username, Username) -> bool) {
    forall a, b :: le(a, b) || le(b, a)
  }

  /** A comparator's contract: a total order. */
  ghost predicate TotalOrder(le: (Username, Username) -> bool) {
    && (forall a :: le(a, a))
    && (forall a, b :: le(a, b) && le(b, a) ==> a == b)
    && (forall a, b, c :: le(a, b) && le(b, c) ==> le(a, c))
    && Connex(le)
  }

  ghost predicate Sorted(s: seq<Username>, le: (Username, Username) -> bool) {
    forall i :: 0 < i < |s| ==> le(s[i - 1], s[i])
  }

  function Insert(x: Username, s: seq<Username>, le: (Username, Username) -> bool): seq<Username> {
    if s == [] then [x]
    else if le(x, s[0]) then [x] + s
    else [s[0]] + Insert(x, s[1..], le)
  }

  /** Collections.sort with the fragment comparator. */
  function SortOwners(s: seq<Username>, le: (Username, Username) -> bool): seq<Username> {
    if s == [] then [] else Insert(s[0], SortOwners(s[1..], le), le)
  }

  lemma {:induction false} InsertPermutes(x: Username, s: seq<Username>, le: (Username, Username) -> bool)
    ensures multiset(Insert(x, s, le)) == multiset(s) + multiset{x}
    ensures |Insert(x, s, le)| == |s| + 1
    ensures Insert(x, s, le)[0] == x || (s != [] && Insert(x, s, le)[0] == s[0])
  {
    if s != [] && !le(x, s[0]) {
      InsertPermutes(x, s[1..], le);
      assert s == [s[0]] + s[1..];
    }
  }

  lemma {:induction false} InsertSorted(x: Username, s: seq<Username>, le: (Username, Username) -> bool)
    requires Connex(le) && Sorted(s, le)
    ensures Sorted(Insert(x, s, le), le)
  {
    if s != [] && !le(x, s[0]) {
      var t := s[1..];
      assert Sorted(t, le) by {
        forall i | 0 < i < |t| ensures le(t[i - 1], t[i]) {
          assert t[i - 1] == s[i] && t[i] == s[i + 1];
        }
      }
      InsertSorted(x, t, le);
      InsertPermutes(x, t, le);
      var it := Insert(x, t, le);
      var r := [s[0]] + it;
      assert le(s[0], x);
      assert le(s[0], it[0]) by {
        if it[0] != x { assert it[0] == s[1]; }
      }
      forall i | 0 < i < |r| ensures le(r[i - 1], r[i]) {
        if i > 1 { assert r[i - 1] == it[i - 2] && r[i] == it[i - 1]; }
      }
    }
  }

  /** The sort yields a sorted permutation of its input. */
  lemma {:induction false} SortOwnersCorrect(s: seq<Username>, le: (Username, Username) -> bool)
    requires TotalOrder(le)
    ensures Sorted(SortOwners(s, le), le)
    ensures multiset(SortOwners(s, le)) == multiset(s)
    ensures |SortOwners(s, le)| == |s|
  {
    if s != [] {
      SortOwnersCorrect(s[1..], le);
      InsertSorted(s[0], SortOwners(s[1..], le), le);
      InsertPermutes(s[0], SortOwners(s[1..], le), le);
      assert s == [s[0]] + s[1..];
    }
  }

  /** exportInternal: the user's active subscriptions' owners, sorted; null when
      there are none. */
  function ExportSpec(subs: seq<Subscription>, user: Username, le: (Username, Username) -> bool)
    : Option<ExternalSubscribedFragments>
  {
    var owners := ActiveOwners(RowsOf(subs, user));
    if owners == [] then None
    else Some(ExternalSubscribedFragments(user, SortOwners(owners, le)))
  }

  /** The export is null exactly when the user has no active subscription; otherwise
      it is in the user's name, lists exactly the owners of the user's active
      subscriptions (inactive ones are left out) and is sorted by the comparator. */
  lemma ExportExact(subs: seq<Subscription>, user: Username, le: (Username, Username) -> bool)
    requires TotalOrder(le)
    ensures ExportSpec(subs, user, le).None? <==>
              forall o :: Subscription(user, o, true) !in subs
    ensures ExportSpec(subs, user, le).Some? ==>
      var d := ExportSpec(subs, user, le).value;
      && d.username == user
      && Sorted(d.subscribedFragments, le)
      && forall o :: o in d.subscribedFragments <==> Subscription(user, o, true) in subs
  {
    var rows := RowsOf(subs, user);
    var owners := ActiveOwners(rows);
    RowsOfMembers(subs, user);
    ActiveOwnersMembers(rows);
    SortOwnersCorrect(owners, le);
    var sorted := SortOwners(owners, le);
    forall o ensures o in sorted <==> o in owners {
      assert o in sorted <==> o in multiset(sorted);
    }
    forall o ensures o in owners <==> Subscription(user, o, true) in subs {
      if o in owners {
        var x :| x in rows && x.active && x.fragmentOwner == o;
        assert x == Subscription(user, o, true);
      }
    }
    if owners != [] {
      assert owners[0] in owners;
    }
  }

  /** The export lists each owner once, since the table has one row per pair. */
  lemma ExportDistinct(subs: seq<Subscription>, user: Username, le: (Username, Username) -> bool)
    requires TotalOrder(le) && UniqueKeys(subs)
    ensures ExportSpec(subs, user, le).Some? ==>
      var s := ExportSpec(subs, user, le).value.subscribedFragments;
      forall o :: multiset(s)[o] <= 1
  {
    var rows := RowsOf(subs, user);
    RowsOfUnique(subs, user);
    ActiveOwnersDistinct(rows, user);
    SortOwnersCorrect(ActiveOwners(rows), le);
  }

  lemma {:induction false} RowsOfUnique(subs: seq<Subscription>, user: Username)
    requires UniqueKeys(subs)
    ensures UniqueKeys(RowsOf(subs, user))
    ensures forall x :: x in RowsOf(subs, user) ==> x.user == user
    decreases |subs|
  {
    RowsOfMembers(subs, user);
    if subs != [] {
      var init, last := subs[..|subs| - 1], subs[|subs| - 1];
      assert UniqueKeys(init) by {
        forall i, j | 0 <= i < j < |init|
          ensures init[i].user != init[j].user || init[i].fragmentOwner != init[j].fragmentOwner
        {
          assert init[i] == subs[i] && init[j] == subs[j];
        }
      }
      RowsOfUnique(init, user);
      RowsOfMembers(init, user);
      var p := RowsOf(init, user);
      if last.user == user {
        var r := p + [last];
        forall i, j | 0 <= i < j < |r|
          ensures r[i].user != r[j].user || r[i].fragmentOwner != r[j].fragmentOwner
        {
          if j == |p| {
            assert r[i] in init;
            var k :| 0 <= k < |init| && init[k] == r[i];
            assert subs[k] == r[i] && subs[|subs| - 1] == last;
          } else {
            assert r[i] == p[i] && r[j] == p[j];
          }
        }
      }
    }
  }

  lemma {:induction false} ActiveOwnersDistinct(rows: seq<Subscription>, user: Username)
    requires UniqueKeys(rows)
    requires forall x :: x in rows ==> x.user == user
    ensures forall o :: multiset(ActiveOwners(rows))[o] <= 1
    decreases |rows|
  {
    if rows != [] {
      var init, last := rows[..|rows| - 1], rows[|rows| - 1];
      assert UniqueKeys(init) by {
        forall i, j | 0 <= i < j < |init|
          ensures init[i].user != init[j].user || init[i].fragmentOwner != init[j].fragmentOwner
        {
          assert init[i] == rows[i] && init[j] == rows[j];
        }
      }
      ActiveOwnersDistinct(init, user);
      ActiveOwnersMembers(init);
      if last.active {
        assert last.fragmentOwner !in ActiveOwners(init);
      }
    }
  }

  // ---------------------------------------------------------------------------
  // Listing
  // ---------------------------------------------------------------------------

  /** getAllUsersWithActiveSubscriptions: each user with an active row once, in the
      order of their first active row. */
  function UsersWithActiveSubscriptions(subs: seq<Subscription>): seq<Username>
    decreases |subs|
  {
    if subs == [] then []
    else
      var p := UsersWithActiveSubscriptions(subs[..|subs| - 1]);
      var last := subs[|subs| - 1];
      if last.active && last.user !in p then p + [last.user] else p
  }

  ghost predicate Distinct(us: seq<Username>) {
    forall i, j :: 0 <= i < j < |us| ==> us[i] != us[j]
  }

  /** The user has at least one active subscription. */
  ghost predicate HasActiveSubscription(subs: seq<Subscription>, user: Username) {
    exists x :: x in subs && x.active && x.user == user
  }

  lemma {:induction false} UsersWithActiveSubscriptionsExact(subs: seq<Subscription>)
    ensures forall u :: u in UsersWithActiveSubscriptions(subs) <==> HasActiveSubscription(subs, u)
    ensures Distinct(UsersWithActiveSubscriptions(subs))
    decreases |subs|
  {
    if subs != [] {
      var init, last := subs[..|subs| - 1], subs[|subs| - 1];
      UsersWithActiveSubscriptionsExact(init);
      assert subs == init + [last];
      var p := UsersWithActiveSubscriptions(init);
      var us := UsersWithActiveSubscriptions(subs);
      forall u ensures u in us <==> HasActiveSubscription(subs, u) {
        if u in us {
          if u in p {
            assert HasActiveSubscription(init, u);
            var x :| x in init && x.active && x.user == u;
            assert x in subs;
          } else {
            assert last in subs && last.active && last.user == u;
          }
        }
        if HasActiveSubscription(subs, u) {
          var x :| x in subs && x.active && x.user == u;
          if x != last {
            assert x in init;
            assert HasActiveSubscription(init, u);
          }
        }
      }
      assert us == if last.active && last.user !in p then p + [last.user] else p;
      if last.active && last.user !in p {
        forall i, j | 0 <= i < j < |us| ensures us[i] != us[j] {
          if j == |p| { assert us[i] == p[i] && p[i] in p && us[j] == last.user; }
          else { assert us[i] == p[i] && us[j] == p[j]; }
        }
      }
    }
  }

  // ---------------------------------------------------------------------------
  // The importer/exporter over its DAO and identity store
  // ---------------------------------------------------------------------------

  class SubscribedFragmentImporterExporter {
    var subscriptions: seq<Subscription>
    var users: set<Username>
    const errorOnMissingUser: bool

    ghost predicate Valid()
      reads this
    {
      UniqueKeys(subscriptions)
    }

    constructor (subscriptions: seq<Subscription>, users: set<Username>, errorOnMissingUser: bool)
      requires UniqueKeys(subscriptions)
      ensures Valid()
      ensures this.subscriptions == subscriptions && this.users == users
      ensures this.errorOnMissingUser == errorOnMissingUser
    {
      this.subscriptions := subscriptions;
      this.users := users;
      this.errorOnMissingUser := errorOnMissingUser;
    }

    /** getPerson: look up without creating first; on failure create only when asked
        to and errorOnMissingUser is off. */
    method GetPerson(username: Username, create: bool) returns (r: Result<Username, IoError>)
      modifies this`users
      ensures r == PersonLookup(old(users), errorOnMissingUser, username, create)
      ensures users == if r.Success? then old(users) + {username} else old(users)
    {
      if username in users {
        return Success(username);
      }
      if !create || errorOnMissingUser {
        return Failure(UnrecognizedUser(username));
      }
      users := users + {username};
      r := Success(username);
    }

    /** importData, run as one transaction: any failure rolls back both the identity
        store and the subscription table. */
    method ImportData(data: ExternalSubscribedFragments) returns (r: Outcome<IoError>)
      requires Valid()
      modifies this
      ensures Valid()
      ensures match ImportSpec(old(users), old(subscriptions), errorOnMissingUser, data)
        case Failure(e) => r == Fail(e) && users == old(users) && subscriptions == old(subscriptions)
        case Success(st) => r == Pass && users == st.0 && subscriptions == st.1
    {
      var savedUsers, savedSubscriptions := users, subscriptions;
      var person := GetPerson(data.username, true);
      if person.Failure? {
        users, subscriptions := savedUsers, savedSubscriptions;
        return Fail(person.error);
      }
      var owners := data.subscribedFragments;
      var i := 0;
      while i < |owners|
        invariant 0 <= i <= |owners|
        invariant users == savedUsers + {data.username}
        invariant forall j :: 0 <= j < i ==> owners[j] in users
        invariant subscriptions == ImportRows(savedSubscriptions, data.username, owners[..i])
      {
        var fragmentPerson := GetPerson(owners[i], false);
        if fragmentPerson.Failure? {
          users, subscriptions := savedUsers, savedSubscriptions;
          return Fail(fragmentPerson.error);
        }
        if !HasSubscription(subscriptions, data.username, owners[i]) {
          subscriptions := subscriptions + [Subscription(data.username, owners[i], true)];
        }
        assert owners[..i + 1][..i] == owners[..i];
        i := i + 1;
      }
      assert owners[..i] == owners;
      ImportRowsUnique(savedSubscriptions, data.username, owners);
      r := Pass;
    }

    /** exportInternal: collect the owners of the person's active rows in DAO
        order, return null when there are none, else sort them. */
    method ExportInternal(person: Username, le: (Username, Username) -> bool)
      returns (r: Option<ExternalSubscribedFragments>)
      ensures r == ExportSpec(subscriptions, person, le)
    {
      var rows := RowsOf(subscriptions, person);
      var owners: seq<Username> := [];
      var i := 0;
      while i < |rows|
        invariant 0 <= i <= |rows|
        invariant owners == ActiveOwners(rows[..i])
      {
        if rows[i].active {
          owners := owners + [rows[i].fragmentOwner];
        }
        assert rows[..i + 1][..i] == rows[..i];
        i := i + 1;
      }
      assert rows[..i] == rows;
      if owners == [] {
        return None;
      }
      r := Some(ExternalSubscribedFragments(person, SortOwners(owners, le)));
    }

    /** exportData: the user must be known; the export itself may be null. */
    method ExportData(id: Username, le: (Username, Username) -> bool)
      returns (r: Result<Option<ExternalSubscribedFragments>, IoError>)
      ensures r.Failure? <==> id !in users
      ensures r.Failure? ==> r.error == UnrecognizedUser(id)
      ensures r.Success? ==> r.value == ExportSpec(subscriptions, id, le)
    {
      var person := PersonLookup(users, errorOnMissingUser, id, false);
      if person.Failure? {
        return Failure(person.error);
      }
      var data := ExportInternal(person.value, le);
      r := Success(data);
    }

    /** deleteData: snapshot the export, then delete every row of the user, active
        or not; other users' rows stay, in order. */
    method DeleteData(id: Username, le: (Username, Username) -> bool)
      returns (r: Result<Option<ExternalSubscribedFragments>, IoError>)
      requires Valid()
      modifies this`subscriptions
      ensures Valid()
      ensures r.Failure? <==> id !in users
      ensures r.Failure? ==> r.error == UnrecognizedUser(id) && subscriptions == old(subscriptions)
      ensures r.Success? ==>
        r.value == ExportSpec(old(subscriptions), id, le) &&
        subscriptions == OthersOf(old(subscriptions), id)
    {
      var person := PersonLookup(users, errorOnMissingUser, id, false);
      if person.Failure? {
        return Failure(person.error);
      }
      var data := ExportInternal(id, le);
      var saved := subscriptions;
      var rows := RowsOf(subscriptions, id);
      DropNothing(saved);
      var i := 0;
      while i < |rows|
        invariant 0 <= i <= |rows|
        invariant subscriptions == DropRows(saved, rows[..i])
      {
        DropStep(saved, rows, i);
        subscriptions := DropRows(subscriptions, [rows[i]]);
        i := i + 1;
      }
      assert rows[..i] == rows;
      DeleteLeavesOthers(saved, id);
      r := Success(data);
    }

    /** getPortalData: one entry per user with active subscriptions, in the order the
        DAO lists them. */
    function GetPortalData(): (r: seq<PortalData>)
      reads this
      ensures forall i :: 0 <= i < |r| ==> HasActiveSubscription(subscriptions, r[i].dataId)
      ensures forall u :: HasActiveSubscription(subscriptions, u) ==>
        exists i :: 0 <= i < |r| && r[i].dataId == u
      ensures forall i, j :: 0 <= i < j < |r| ==> r[i].dataId != r[j].dataId
      // the entries follow the DAO listing, one for one and in its order
      ensures |r| == |UsersWithActiveSubscriptions(subscriptions)|
      ensures forall i :: 0 <= i < |r| ==> r[i].dataId == UsersWithActiveSubscriptions(subscriptions)[i]
    {
      var us := UsersWithActiveSubscriptions(subscriptions);
      UsersWithActiveSubscriptionsExact(subscriptions);
      var r := PortalDataOf(us);
      assert forall i :: 0 <= i < |r| ==> us[i] in us;
      r
    }
  }

  /** Collections2.transform: one SimpleStringPortalData per listed user, in order. */
  function PortalDataOf(us: seq<Username>): (r: seq<PortalData>)
    ensures |r| == |us|
    ensures forall i :: 0 <= i < |r| ==> r[i].dataId == us[i]
    decreases |us|
  {
    if us == [] then []
    else PortalDataOf(us[..|us| - 1]) + [SimpleStringPortalData(us[|us| - 1])]
  }

  /** Deleting each of the user's rows leaves exactly the other users' rows, still
      one per pair. */
  lemma DeleteLeavesOthers(subs: seq<Subscription>, user: Username)
    requires UniqueKeys(subs)
    ensures DropRows(subs, RowsOf(subs, user)) == OthersOf(subs, user)
    ensures UniqueKeys(OthersOf(subs, user))
  {
    RowsOfMembers(subs, user);
    DropOwnRows(subs, RowsOf(subs, user), user);
    OthersOfUnique(subs, user);
  }

  lemma {:induction false} OthersOfUnique(subs: seq<Subscription>, user: Username)
    requires UniqueKeys(subs)
    ensures UniqueKeys(OthersOf(subs, user))
    decreases |subs|
  {
    if subs != [] {
      var init, last := subs[..|subs| - 1], subs[|subs| - 1];
      assert UniqueKeys(init) by {
        forall i, j | 0 <= i < j < |init|
          ensures init[i].user != init[j].user || init[i].fragmentOwner != init[j].fragmentOwner
        {
          assert init[i] == subs[i] && init[j] == subs[j];
        }
      }
      OthersOfUnique(init, user);
      OthersOfMembers(init, user);
      var p := OthersOf(init, user);
      if last.user != user {
        var r := p + [last];
        forall i, j | 0 <= i < j < |r|
          ensures r[i].user != r[j].user || r[i].fragmentOwner != r[j].fragmentOwner
        {
          if j == |p| {
            assert r[i] in init;
            var k :| 0 <= k < |init| && init[k] == r[i];
            assert subs[k] == r[i];
          } else {
            assert r[i] == p[i] && r[j] == p[j];
          }
        }
      }
    }
  }
}
