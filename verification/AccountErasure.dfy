// Erasing an account from the postbox: one database transaction over every table that knows the
// person, and the files nobody else uses, which no transaction covers. A failed attempt rolls the
// database back and leaves whatever files it already removed removed.
module AccountErasure {
  import opened Common
  import CalendarErasure

  type Id = nat
  type Address = nat
  type Account = nat
  type Subject = string
  type Digest = string

  // A mailbox's attachment; the file is stored once under its digest, however many claim it.
  datatype Attachment = Attachment(sha: Digest, owner: Address)
  datatype Portrayed = OfIdentity(address: Address) | OfOther(id: Id)
  datatype Avatar = Avatar(owner: Portrayed, variants: set<Digest>)
  datatype Request = Request(account: Account, subject: Subject, contact: Option<string>, completed: Option<nat>)

  // Who a row that is kept belongs to.
  datatype Holder = Held(account: Account) | ErasedBy(request: string)

  datatype Db = Db(
    accounts: map<Account, Subject>,
    identities: map<Address, Account>,
    requests: map<string, Request>,
    attachments: map<Id, Attachment>,
    avatars: map<Id, Avatar>,
    mailboxRows: map<Id, Address>,       // every table deleted by mailbox
    accountRows: map<Id, Account>,       // every table deleted by account
    keptRows: map<Id, Holder>,           // purchases, leases, plans: kept under an erased identifier
    groupPosts: map<Id, Option<Address>>, // ciphertext that stays with the group; None is 'erased'
    reports: map<Id, Address>,           // abuse evidence
    calendar: CalendarErasure.Tables,
    orgOwners: set<Account>,
    orgMembers: set<(Option<Account>, Option<Address>)>, // not removed
    orgAgents: set<Address>,                             // not deleted
    erasedSubjects: map<Subject, nat>)

  datatype Store = Store(db: Db, blobs: set<Digest>, avatarBlobs: set<Digest>)

  datatype Evidence = Evidence(request: string, complete: bool, retainAbuse: bool)

  // ---- what is asked of the request ---------------------------------------------------------------

  predicate Hex(s: string) {
    forall i :: 0 <= i < |s| ==> 'a' <= s[i] <= 'f' || '0' <= s[i] <= '9'
  }

  predicate ValidReference(r: string) {
    |r| == 36 && r[..4] == "del_" && Hex(r[4..])
  }

  predicate ValidDigest(d: Digest) {
    |d| == 64 && Hex(d)
  }

  function AddressesOf(db: Db, account: Account): set<Address> {
    set a | a in db.identities && db.identities[a] == account
  }

  predicate Offboarded(db: Db, account: Account) {
    && account !in db.orgOwners
    && (forall m :: m in db.orgMembers ==> m.0 != Some(account) && !(m.1.Some? && m.1.value in AddressesOf(db, account)))
    && db.orgAgents !! AddressesOf(db, account)
  }

  predicate Confirmed(db: Db, request: string, e: Evidence) {
    && ValidReference(request) && e.request == request && e.complete
    && request in db.requests && db.requests[request].completed.None?
    && db.requests[request].subject != ""
    && db.requests[request].account in db.accounts && db.accounts[db.requests[request].account] == db.requests[request].subject
    && Offboarded(db, db.requests[request].account)
  }

  // ---- files nobody else uses -----------------------------------------------------------------------

  // The digests of the person's attachments, and whether any attachment uses one.
  function Shas(m: map<Id, Attachment>, who: set<Address>): set<Digest> {
    set i | i in m && m[i].owner in who :: m[i].sha
  }

  predicate Used(m: map<Id, Attachment>, d: Digest) {
    exists i :: i in m && m[i].sha == d
  }

  function WithoutOwners(m: map<Id, Attachment>, who: set<Address>): map<Id, Attachment> {
    map i | i in m && m[i].owner !in who :: m[i]
  }

  // Digests of the person's attachments that no remaining attachment uses.
  function Orphans(db: Db, who: set<Address>): set<Digest> {
    set d | d in Shas(db.attachments, who) && !Used(WithoutOwners(db.attachments, who), d)
  }

  predicate Shows(v: Avatar, who: set<Address>) {
    v.owner.OfIdentity? && v.owner.address in who
  }

  // The same for profile pictures, which have several sizes each.
  function Sizes(m: map<Id, Avatar>, who: set<Address>): set<Digest> {
    set i, d | i in m && Shows(m[i], who) && d in m[i].variants :: d
  }

  predicate Pictured(m: map<Id, Avatar>, d: Digest) {
    exists i :: i in m && d in m[i].variants
  }

  function WithoutAvatars(m: map<Id, Avatar>, who: set<Address>): map<Id, Avatar> {
    map i | i in m && !Shows(m[i], who) :: m[i]
  }

  function AvatarOrphans(db: Db, who: set<Address>): set<Digest> {
    set d | d in Sizes(db.avatars, who) && !Pictured(WithoutAvatars(db.avatars, who), d)
  }

  predicate Erasable(db: Db, who: set<Address>) {
    (forall d :: d in Orphans(db, who) ==> ValidDigest(d)) && (forall d :: d in AvatarOrphans(db, who) ==> ValidDigest(d))
  }

  // ---- the transaction ------------------------------------------------------------------------------

  function WithoutValues(m: map<Id, nat>, gone: set<nat>): map<Id, nat> {
    map i | i in m && m[i] !in gone :: m[i]
  }

  function Renamed(m: map<Id, Holder>, account: Account, request: string): map<Id, Holder> {
    map i | i in m :: if m[i] == Held(account) then ErasedBy(request) else m[i]
  }

  function Unsigned(m: map<Id, Option<Address>>, who: set<Address>): map<Id, Option<Address>> {
    map i | i in m :: if m[i].Some? && m[i].value in who then None else m[i]
  }

  function ErasedDb(db: Db, request: string, e: Evidence, now: nat): Db
    requires request in db.requests
  {
    var r := db.requests[request];
    var who := AddressesOf(db, r.account);
    Db(db.accounts - {r.account}, WithoutValues(db.identities, {r.account}),
       db.requests[request := Request(r.account, "", None, Some(now))],
       WithoutOwners(db.attachments, who), WithoutAvatars(db.avatars, who),
       WithoutValues(db.mailboxRows, who), WithoutValues(db.accountRows, {r.account}), Renamed(db.keptRows, r.account, request),
       Unsigned(db.groupPosts, who), if e.retainAbuse then db.reports else WithoutValues(db.reports, who),
       CalendarErasure.Erased(db.calendar, who, r.account), db.orgOwners, db.orgMembers, db.orgAgents,
       if r.subject in db.erasedSubjects then db.erasedSubjects else db.erasedSubjects[r.subject := now])
  }

  // A run that meets no failure.
  function Clean(s: Store, request: string, e: Evidence, now: nat): Store
    requires request in s.db.requests
  {
    var who := AddressesOf(s.db, s.db.requests[request].account);
    Store(ErasedDb(s.db, request, e, now), s.blobs - Orphans(s.db, who), s.avatarBlobs - AvatarOrphans(s.db, who))
  }

  datatype Attempt = Attempt(request: string, evidence: Evidence, now: nat, done: bool)

  // What one attempt can do: refuse without touching anything, succeed whole, or fail with the
  // database as it was and some of the person's own unshared files gone (pictures last).
  ghost predicate Attempted(s: Store, s': Store, a: Attempt) {
    if !Confirmed(s.db, a.request, a.evidence) then !a.done && s' == s
    else
      var who := AddressesOf(s.db, s.db.requests[a.request].account);
      if a.done then Erasable(s.db, who) && s' == Clean(s, a.request, a.evidence, a.now)
      else
        && s'.db == s.db
        && s.blobs - Orphans(s.db, who) <= s'.blobs <= s.blobs
        && s.avatarBlobs - AvatarOrphans(s.db, who) <= s'.avatarBlobs <= s.avatarBlobs
        && (s'.avatarBlobs != s.avatarBlobs ==> s'.blobs == s.blobs - Orphans(s.db, who))
        && (!Erasable(s.db, who) ==> s' == s)
  }

  // ---- what it promises -----------------------------------------------------------------------------

  // Every row has its file.
  ghost predicate Covered(s: Store) {
    && (forall i :: i in s.db.attachments ==> s.db.attachments[i].sha in s.blobs)
    && (forall i :: i in s.db.avatars ==> s.db.avatars[i].variants <= s.avatarBlobs)
  }

  // A finished erasure leaves every remaining row with its file, and removes exactly the files that
  // the person's rows used and no remaining row does.
  lemma {:induction false} ErasureKeepsFiles(s: Store, s': Store, a: Attempt)
    requires Attempted(s, s', a) && a.done && Covered(s)
    ensures Covered(s')
    ensures forall d :: d in s.blobs ==>
              (d !in s'.blobs <==> d in Shas(s.db.attachments, AddressesOf(s.db, s.db.requests[a.request].account)) && !Used(s'.db.attachments, d))
    ensures forall d :: d in s.avatarBlobs ==>
              (d !in s'.avatarBlobs <==> d in Sizes(s.db.avatars, AddressesOf(s.db, s.db.requests[a.request].account)) && !Pictured(s'.db.avatars, d))
  {
    var who := AddressesOf(s.db, s.db.requests[a.request].account);
    forall i | i in s'.db.avatars ensures s'.db.avatars[i].variants <= s'.avatarBlobs {
      forall d | d in s'.db.avatars[i].variants ensures d in s'.avatarBlobs {
        assert Pictured(WithoutAvatars(s.db.avatars, who), d);
      }
    }
    forall i | i in s'.db.attachments ensures s'.db.attachments[i].sha in s'.blobs {
      assert Used(WithoutOwners(s.db.attachments, who), s'.db.attachments[i].sha);
    }
  }

  // Nothing of the account is left in any table, abuse reports aside where they are to be kept.
  ghost predicate NoTraceOf(db: Db, account: Account, who: set<Address>, reports: bool) {
    && account !in db.accounts
    && (forall x :: x in db.identities ==> db.identities[x] != account)
    && (forall i :: i in db.attachments ==> db.attachments[i].owner !in who)
    && (forall i :: i in db.avatars ==> !Shows(db.avatars[i], who))
    && (forall i :: i in db.mailboxRows ==> db.mailboxRows[i] !in who)
    && (forall i :: i in db.accountRows ==> db.accountRows[i] != account)
    && (forall i :: i in db.keptRows ==> db.keptRows[i] != Held(account))
    && (forall i :: i in db.groupPosts && db.groupPosts[i].Some? ==> db.groupPosts[i].value !in who)
    && (forall i :: i in db.reports ==> reports || db.reports[i] !in who)
    && CalendarErasure.NoTrace(db.calendar, who, account)
  }

  // Every row of one database is in the other, as it is.
  ghost predicate RowsWithin(a: Db, b: Db) {
    && CalendarErasure.Sub(a.accounts, b.accounts) && CalendarErasure.Sub(a.identities, b.identities)
    && CalendarErasure.Sub(a.attachments, b.attachments) && CalendarErasure.Sub(a.avatars, b.avatars)
    && CalendarErasure.Sub(a.mailboxRows, b.mailboxRows) && CalendarErasure.Sub(a.accountRows, b.accountRows)
    && CalendarErasure.Sub(a.keptRows, b.keptRows) && CalendarErasure.Sub(a.groupPosts, b.groupPosts)
    && CalendarErasure.Sub(a.reports, b.reports) && CalendarErasure.Within(a.calendar, b.calendar)
  }

  lemma TracesGone(db: Db, account: Account, who: set<Address>, request: string)
    ensures var m := WithoutValues(db.identities, {account}); forall x :: x in m ==> m[x] != account
    ensures var m := WithoutOwners(db.attachments, who); forall i :: i in m ==> m[i].owner !in who
    ensures var m := WithoutAvatars(db.avatars, who); forall i :: i in m ==> !Shows(m[i], who)
    ensures var m := WithoutValues(db.mailboxRows, who); forall i :: i in m ==> m[i] !in who
    ensures var m := WithoutValues(db.accountRows, {account}); forall i :: i in m ==> m[i] != account
    ensures var m := WithoutValues(db.reports, who); forall i :: i in m ==> m[i] !in who
    ensures var m := Renamed(db.keptRows, account, request); m.Keys == db.keptRows.Keys && forall i :: i in m ==> m[i] != Held(account)
    ensures var m := Unsigned(db.groupPosts, who);
            m.Keys == db.groupPosts.Keys && forall i :: i in m && m[i].Some? ==> m[i].value !in who
  {
  }

  // Nothing of the account is left; rows that are kept under an erased identifier, posts to groups and
  // other people's deletion requests are all still there, and the calendar still fits together.
  lemma {:induction false} NothingOfTheirsStays(s: Store, s': Store, a: Attempt)
    requires Attempted(s, s', a) && a.done && CalendarErasure.Integral(s.db.calendar)
    ensures var account := s.db.requests[a.request].account;
            NoTraceOf(s'.db, account, AddressesOf(s.db, account), a.evidence.retainAbuse)
    ensures CalendarErasure.Integral(s'.db.calendar)
    ensures s'.db.keptRows.Keys == s.db.keptRows.Keys && s'.db.groupPosts.Keys == s.db.groupPosts.Keys
    ensures s'.db.requests - {a.request} == s.db.requests - {a.request}
  {
    hide Erasable, Orphans, AvatarOrphans, WithoutValues, WithoutOwners, WithoutAvatars, Renamed, Unsigned, AddressesOf;
    hide CalendarErasure.Erased, CalendarErasure.NoTrace, CalendarErasure.Integral;
    var account := s.db.requests[a.request].account;
    var who := AddressesOf(s.db, account);
    CalendarErasure.ErasureKeepsIntegrity(s.db.calendar, who, account);
    TracesGone(s.db, account, who, a.request);
  }

  lemma StillWithinValues(a: map<Id, nat>, b: map<Id, nat>, gone: set<nat>)
    requires CalendarErasure.Sub(a, b) && forall i :: i in a ==> a[i] !in gone
    ensures CalendarErasure.Sub(a, WithoutValues(b, gone))
  {
  }

  // Table by table: rows without a trace are not among those the statements touch.
  lemma WithinErased(kept: Db, db: Db, account: Account, who: set<Address>, request: string, reports: bool)
    requires RowsWithin(kept, db) && NoTraceOf(kept, account, who, reports)
    ensures CalendarErasure.Sub(kept.accounts, db.accounts - {account})
    ensures CalendarErasure.Sub(kept.identities, WithoutValues(db.identities, {account}))
    ensures CalendarErasure.Sub(kept.attachments, WithoutOwners(db.attachments, who))
    ensures CalendarErasure.Sub(kept.avatars, WithoutAvatars(db.avatars, who))
    ensures CalendarErasure.Sub(kept.mailboxRows, WithoutValues(db.mailboxRows, who))
    ensures CalendarErasure.Sub(kept.accountRows, WithoutValues(db.accountRows, {account}))
    ensures CalendarErasure.Sub(kept.keptRows, Renamed(db.keptRows, account, request))
    ensures CalendarErasure.Sub(kept.groupPosts, Unsigned(db.groupPosts, who))
    ensures CalendarErasure.Sub(kept.reports, if reports then db.reports else WithoutValues(db.reports, who))
  {
    hide WithoutValues, CalendarErasure.NoTrace, CalendarErasure.Within;
    StillWithinValues(kept.identities, db.identities, {account});
    StillWithinValues(kept.mailboxRows, db.mailboxRows, who);
    StillWithinValues(kept.accountRows, db.accountRows, {account});
    if !reports {
      StillWithinValues(kept.reports, db.reports, who);
    }
  }

  // And nothing else went: any rows that hold no trace of the account, with a calendar that fits
  // together, are all still there, in every table.
  lemma {:induction false} OnlyTheirsGoes(s: Store, s': Store, a: Attempt, kept: Db)
    requires Attempted(s, s', a) && a.done && RowsWithin(kept, s.db) && CalendarErasure.Integral(kept.calendar)
    requires var account := s.db.requests[a.request].account;
             NoTraceOf(kept, account, AddressesOf(s.db, account), a.evidence.retainAbuse)
    ensures RowsWithin(kept, s'.db)
  {
    hide Erasable, Orphans, AvatarOrphans, WithoutValues, WithoutOwners, WithoutAvatars, Renamed, Unsigned, AddressesOf;
    hide CalendarErasure.Erased, CalendarErasure.NoTrace, CalendarErasure.Integral, CalendarErasure.Within, CalendarErasure.Sub;
    var account := s.db.requests[a.request].account;
    var who := AddressesOf(s.db, account);
    CalendarErasure.ErasureRemovesNoMore(s.db.calendar, who, account, kept.calendar);
    WithinErased(kept, s.db, account, who, a.request, a.evidence.retainAbuse);
  }

  // ---- failed attempts --------------------------------------------------------------------------------

  // A sequence of attempts and the states between them; nothing else writes meanwhile.
  ghost predicate Run(states: seq<Store>, attempts: seq<Attempt>) {
    |states| == |attempts| + 1 && forall k :: 0 <= k < |attempts| ==> Attempted(states[k], states[k + 1], attempts[k])
  }

  lemma {:induction false} FailuresKeepDb(states: seq<Store>, attempts: seq<Attempt>, request: string, e: Evidence, n: nat)
    requires Run(states, attempts) && n <= |attempts| && request in states[0].db.requests
    requires forall k :: 0 <= k < |attempts| ==> !attempts[k].done && attempts[k].request == request && attempts[k].evidence == e
    ensures var who := AddressesOf(states[0].db, states[0].db.requests[request].account);
            && states[n].db == states[0].db
            && states[0].blobs - Orphans(states[0].db, who) <= states[n].blobs <= states[0].blobs
            && states[0].avatarBlobs - AvatarOrphans(states[0].db, who) <= states[n].avatarBlobs <= states[0].avatarBlobs
  {
    if n > 0 {
      FailuresKeepDb(states, attempts, request, e, n - 1);
      assert Attempted(states[n - 1], states[n], attempts[n - 1]);
    }
  }

  // Any number of failed attempts and then a clean one end as the clean one alone would have.
  lemma {:induction false} RetryingEndsTheSame(states: seq<Store>, attempts: seq<Attempt>, request: string, e: Evidence, now: nat)
    requires Run(states, attempts) && request in states[0].db.requests
    requires forall k :: 0 <= k < |attempts| ==> !attempts[k].done && attempts[k].request == request && attempts[k].evidence == e
    ensures var last := states[|attempts|];
            request in last.db.requests && Clean(last, request, e, now) == Clean(states[0], request, e, now)
  {
    FailuresKeepDb(states, attempts, request, e, |attempts|);
    var who := AddressesOf(states[0].db, states[0].db.requests[request].account);
    var last := states[|attempts|];
    assert last.blobs - Orphans(last.db, who) == states[0].blobs - Orphans(states[0].db, who);
    assert last.avatarBlobs - AvatarOrphans(last.db, who) == states[0].avatarBlobs - AvatarOrphans(states[0].db, who);
  }

  // The time of the run shows only in its two timestamps.
  lemma {:induction false} OnlyTheTimeDiffers(s: Store, request: string, e: Evidence, now: nat, later: nat)
    requires request in s.db.requests
    ensures var x, y := Clean(s, request, e, now), Clean(s, request, e, later);
      && x.blobs == y.blobs && x.avatarBlobs == y.avatarBlobs
      && x.db.requests[request].(completed := None) == y.db.requests[request].(completed := None)
      && x.db.(requests := y.db.requests, erasedSubjects := y.db.erasedSubjects) == y.db
      && x.db.requests - {request} == y.db.requests - {request} && x.db.erasedSubjects.Keys == y.db.erasedSubjects.Keys
  {
    var x, y := Clean(s, request, e, now), Clean(s, request, e, later);
    assert x.db.requests - {request} == s.db.requests - {request};
    assert y.db.requests - {request} == s.db.requests - {request};
  }

  // The accounts some attempt failed for.
  ghost function FailedFor(states: seq<Store>, attempts: seq<Attempt>, n: nat): set<Account>
    requires |states| == |attempts| + 1 && n <= |attempts|
  {
    set k | 0 <= k < n && !attempts[k].done && attempts[k].request in states[k].db.requests :: states[k].db.requests[attempts[k].request].account
  }

  predicate BelongsTo(db: Db, address: Address, failed: set<Account>) {
    address in db.identities && db.identities[address] in failed
  }

  // Attachments and pictures that miss a file belong to these accounts.
  ghost predicate OnlyTheseDangle(s: Store, failed: set<Account>) {
    && (forall i :: i in s.db.attachments && s.db.attachments[i].sha !in s.blobs ==> BelongsTo(s.db, s.db.attachments[i].owner, failed))
    && (forall i, d :: i in s.db.avatars && d in s.db.avatars[i].variants && d !in s.avatarBlobs ==>
          s.db.avatars[i].owner.OfIdentity? && BelongsTo(s.db, s.db.avatars[i].owner.address, failed))
  }

  // A file that is gone was used by nobody but the person.
  lemma GoneWasTheirs(db: Db, who: set<Address>, i: Id)
    requires i in db.attachments && db.attachments[i].sha in Orphans(db, who)
    ensures db.attachments[i].owner in who
  {
    assert i in WithoutOwners(db.attachments, who) <==> db.attachments[i].owner !in who;
  }

  lemma GoneShowedThem(db: Db, who: set<Address>, i: Id, d: Digest)
    requires i in db.avatars && d in db.avatars[i].variants && d in AvatarOrphans(db, who)
    ensures Shows(db.avatars[i], who)
  {
    assert i in WithoutAvatars(db.avatars, who) <==> !Shows(db.avatars[i], who);
  }

  lemma {:induction false} AttemptDanglesOwn(s: Store, s': Store, a: Attempt, failed: set<Account>)
    requires Attempted(s, s', a) && OnlyTheseDangle(s, failed)
    ensures a.done ==> OnlyTheseDangle(s', failed)
    ensures !a.done && a.request in s.db.requests ==> OnlyTheseDangle(s', failed + {s.db.requests[a.request].account})
    ensures !a.done && a.request !in s.db.requests ==> OnlyTheseDangle(s', failed)
  {
    if Confirmed(s.db, a.request, a.evidence) {
      hide Orphans, AvatarOrphans, CalendarErasure.Erased, Renamed, Unsigned, Offboarded;
      var account := s.db.requests[a.request].account;
      var who := AddressesOf(s.db, account);
      if a.done {
        hide AddressesOf;
        SuccessDanglesNobody(s, s', account, failed);
      } else {
        hide ErasedDb, Erasable, AddressesOf;
        FailureDanglesOwn(s, s', account, failed);
      }
    }
  }

  // What a failure takes away belonged to the person ...
  lemma FailureDanglesOwn(s: Store, s': Store, account: Account, failed: set<Account>)
    requires s'.db == s.db && OnlyTheseDangle(s, failed)
    requires var who := AddressesOf(s.db, account);
             s.blobs - Orphans(s.db, who) <= s'.blobs && s.avatarBlobs - AvatarOrphans(s.db, who) <= s'.avatarBlobs
    ensures OnlyTheseDangle(s', failed + {account})
  {
    hide Orphans, AvatarOrphans;
    var who := AddressesOf(s.db, account);
    forall i | i in s.db.attachments && s.db.attachments[i].sha in Orphans(s.db, who) ensures s.db.attachments[i].owner in who {
      GoneWasTheirs(s.db, who, i);
    }
    forall i, d | i in s.db.avatars && d in s.db.avatars[i].variants && d in AvatarOrphans(s.db, who) ensures Shows(s.db.avatars[i], who) {
      GoneShowedThem(s.db, who, i, d);
    }
  }

  // ... and what a success takes away belonged to rows that went with it.
  lemma SuccessDanglesNobody(s: Store, s': Store, account: Account, failed: set<Account>)
    requires OnlyTheseDangle(s, failed)
    requires var who := AddressesOf(s.db, account);
             && s'.blobs == s.blobs - Orphans(s.db, who) && s'.avatarBlobs == s.avatarBlobs - AvatarOrphans(s.db, who)
             && s'.db.attachments == WithoutOwners(s.db.attachments, who) && s'.db.avatars == WithoutAvatars(s.db.avatars, who)
             && s'.db.identities == WithoutValues(s.db.identities, {account})
    ensures OnlyTheseDangle(s', failed)
  {
    hide Orphans, AvatarOrphans;
    var who := AddressesOf(s.db, account);
    forall i | i in s'.db.attachments && s'.db.attachments[i].sha !in s'.blobs
      ensures BelongsTo(s'.db, s'.db.attachments[i].owner, failed)
    {
      if s.db.attachments[i].sha in Orphans(s.db, who) {
        GoneWasTheirs(s.db, who, i);
      }
    }
    forall i, d | i in s'.db.avatars && d in s'.db.avatars[i].variants && d !in s'.avatarBlobs
      ensures s'.db.avatars[i].owner.OfIdentity? && BelongsTo(s'.db, s'.db.avatars[i].owner.address, failed)
    {
      if d in AvatarOrphans(s.db, who) {
        GoneShowedThem(s.db, who, i, d);
      }
    }
  }

  // In any run of attempts, for any requests: a row whose file is missing belongs to an account that
  // an attempt failed for. Nobody else's attachment or picture ever loses its file.
  lemma {:induction false} OnlyFailedAccountsDangle(states: seq<Store>, attempts: seq<Attempt>, n: nat)
    requires Run(states, attempts) && n <= |attempts| && Covered(states[0])
    ensures OnlyTheseDangle(states[n], FailedFor(states, attempts, n))
  {
    if n > 0 {
      OnlyFailedAccountsDangle(states, attempts, n - 1);
      var a, before := attempts[n - 1], FailedFor(states, attempts, n - 1);
      assert Attempted(states[n - 1], states[n], a);
      AttemptDanglesOwn(states[n - 1], states[n], a, before);
      var now := FailedFor(states, attempts, n);
      assert before <= now;
      if !a.done && a.request in states[n - 1].db.requests {
        assert states[n - 1].db.requests[a.request].account in now;
      }
    }
  }

  // ---- the erasure as it runs -------------------------------------------------------------------------

  // The tables emptied one mailbox at a time.
  datatype Mailboxes = Mailboxes(attachments: map<Id, Attachment>, rows: map<Id, Address>, avatars: map<Id, Avatar>, posts: map<Id, Option<Address>>)

  function Emptied(m: Mailboxes, who: set<Address>): Mailboxes {
    Mailboxes(WithoutOwners(m.attachments, who), WithoutValues(m.rows, who), WithoutAvatars(m.avatars, who), Unsigned(m.posts, who))
  }

  lemma EmptiedTwice(m: Mailboxes, a: set<Address>, b: set<Address>)
    ensures Emptied(Emptied(m, a), b) == Emptied(m, a + b)
  {
    assert WithoutOwners(WithoutOwners(m.attachments, a), b) == WithoutOwners(m.attachments, a + b);
    assert WithoutValues(WithoutValues(m.rows, a), b) == WithoutValues(m.rows, a + b);
    assert WithoutAvatars(WithoutAvatars(m.avatars, a), b) == WithoutAvatars(m.avatars, a + b);
    assert Unsigned(Unsigned(m.posts, a), b) == Unsigned(m.posts, a + b);
  }

  lemma EmptiedOfNobody(m: Mailboxes)
    ensures Emptied(m, {}) == m
  {
    assert WithoutOwners(m.attachments, {}) == m.attachments && WithoutValues(m.rows, {}) == m.rows;
    assert WithoutAvatars(m.avatars, {}) == m.avatars && Unsigned(m.posts, {}) == m.posts;
  }

  // The digests the mailboxes used, and the tables without them.
  method EmptyMailboxes(m0: Mailboxes, addresses: seq<Address>) returns (m: Mailboxes, candidates: set<Digest>, pictures: set<Digest>)
    ensures m == Emptied(m0, CalendarErasure.Members(addresses))
    ensures candidates == Shas(m0.attachments, CalendarErasure.Members(addresses))
    ensures pictures == Sizes(m0.avatars, CalendarErasure.Members(addresses))
  {
    m, candidates, pictures := m0, {}, {};
    EmptiedOfNobody(m0);
    assert CalendarErasure.Members(addresses[..0]) == {};
    for n := 0 to |addresses|
      invariant m == Emptied(m0, CalendarErasure.Members(addresses[..n]))
      invariant candidates == Shas(m0.attachments, CalendarErasure.Members(addresses[..n]))
      invariant pictures == Sizes(m0.avatars, CalendarErasure.Members(addresses[..n]))
    {
      var address := addresses[n];
      ghost var before := CalendarErasure.Members(addresses[..n]);
      assert addresses[..n + 1] == addresses[..n] + [address];
      assert CalendarErasure.Members(addresses[..n + 1]) == before + {address};
      EmptiedTwice(m0, before, {address});
      MoreShas(m0.attachments, before, address);
      MoreSizes(m0.avatars, before, address);
      hide Shas, Sizes, WithoutOwners, WithoutAvatars, WithoutValues, Unsigned;
      candidates := candidates + Shas(m.attachments, {address});
      pictures := pictures + Sizes(m.avatars, {address});
      m := Emptied(m, {address});
    }
    assert addresses[..|addresses|] == addresses;
  }

  // A mailbox's digests can be read off the tables others were already emptied from.
  lemma MoreShas(m: map<Id, Attachment>, before: set<Address>, address: Address)
    ensures Shas(m, before + {address}) == Shas(m, before) + Shas(WithoutOwners(m, before), {address})
  {
    forall d | d in Shas(m, before + {address}) ensures d in Shas(m, before) + Shas(WithoutOwners(m, before), {address}) {
      var i :| i in m && m[i].owner in before + {address} && m[i].sha == d;
      if m[i].owner !in before {
        assert WithoutOwners(m, before)[i] == m[i];
      }
    }
  }

  lemma MoreSizes(m: map<Id, Avatar>, before: set<Address>, address: Address)
    ensures Sizes(m, before + {address}) == Sizes(m, before) + Sizes(WithoutAvatars(m, before), {address})
  {
    forall d | d in Sizes(m, before + {address}) ensures d in Sizes(m, before) + Sizes(WithoutAvatars(m, before), {address}) {
      var i :| i in m && Shows(m[i], before + {address}) && d in m[i].variants;
      if !Shows(m[i], before) {
        assert WithoutAvatars(m, before)[i] == m[i];
      }
    }
  }

  class PostboxStore {
    var db: Db
    var blobs: set<Digest>
    var avatarBlobs: set<Digest>

    constructor (s: Store)
      ensures S() == s
    {
      db, blobs, avatarBlobs := s.db, s.blobs, s.avatarBlobs;
    }

    function S(): Store
      reads this
    {
      Store(db, blobs, avatarBlobs)
    }

    // Remove files one by one; a file that is not there is fine, any other failure stops.
    method Unlink(orphaned: set<Digest>, pictures: set<Digest>) returns (ok: bool)
      modifies `blobs, `avatarBlobs
      ensures old(blobs) - orphaned <= blobs <= old(blobs) && old(avatarBlobs) - pictures <= avatarBlobs <= old(avatarBlobs)
      ensures ok ==> blobs == old(blobs) - orphaned && avatarBlobs == old(avatarBlobs) - pictures
      ensures avatarBlobs != old(avatarBlobs) ==> blobs == old(blobs) - orphaned
    {
      var todo := orphaned;
      while todo != {}
        invariant todo <= orphaned && blobs == old(blobs) - (orphaned - todo) && avatarBlobs == old(avatarBlobs)
        decreases |todo|
      {
        var d :| d in todo;
        var fails: bool := *;
        if fails {
          return false;
        }
        blobs, todo := blobs - {d}, todo - {d};
      }
      todo := pictures;
      while todo != {}
        invariant todo <= pictures && blobs == old(blobs) - orphaned && avatarBlobs == old(avatarBlobs) - (pictures - todo)
        decreases |todo|
      {
        var d :| d in todo;
        var fails: bool := *;
        if fails {
          return false;
        }
        avatarBlobs, todo := avatarBlobs - {d}, todo - {d};
      }
      return true;
    }

    // `erase`: everything in one transaction, the files last.
    method Erase(request: string, e: Evidence, now: nat) returns (done: bool)
      modifies this
      ensures Attempted(old(S()), S(), Attempt(request, e, now, done))
    {
      if !Confirmed(db, request, e) {
        return false;
      }
      var saved := db;
      var orphaned, pictures;
      db, orphaned, pictures := EraseRows(db, request, e, now);
      hide Confirmed, ValidDigest, ErasedDb, Orphans, AvatarOrphans;
      if !(forall d :: d in orphaned ==> ValidDigest(d)) || !(forall d :: d in pictures ==> ValidDigest(d)) {
        db := saved;
        return false;
      }
      done := Unlink(orphaned, pictures);
      if !done {
        db := saved;
        return;
      }
      db := db.(requests := db.requests[request := Request(saved.requests[request].account, "", None, Some(now))]);
    }
  }

  // The statements of the transaction, up to the files: the tables without the person, and the
  // digests that no remaining row uses.
  method EraseRows(db0: Db, request: string, e: Evidence, now: nat) returns (db: Db, orphaned: set<Digest>, pictures: set<Digest>)
    requires request in db0.requests
    ensures db.requests == db0.requests
    ensures var r := db0.requests[request];
            ErasedDb(db0, request, e, now) == db.(requests := db.requests[request := Request(r.account, "", None, Some(now))])
    ensures orphaned == Orphans(db0, AddressesOf(db0, db0.requests[request].account))
    ensures pictures == AvatarOrphans(db0, AddressesOf(db0, db0.requests[request].account))
  {
    hide Shas, Sizes, WithoutOwners, WithoutAvatars, WithoutValues, Unsigned, Renamed, Used, Pictured, CalendarErasure.Erased;
    var r := db0.requests[request];
    var who := AddressesOf(db0, r.account);
    var addresses := ListAddresses(who);
    var m, candidates, sizes := EmptyMailboxes(Mailboxes(db0.attachments, db0.mailboxRows, db0.avatars, db0.groupPosts), addresses);
    db := db0.(attachments := m.attachments, mailboxRows := m.rows, avatars := m.avatars, groupPosts := m.posts);
    var calendar := new CalendarErasure.CalendarStore(db.calendar);
    calendar.Erase(addresses, r.account);
    db := db.(calendar := calendar.t);
    db := db.(accountRows := WithoutValues(db.accountRows, {r.account}), identities := WithoutValues(db.identities, {r.account}));
    db := db.(keptRows := Renamed(db.keptRows, r.account, request));
    db := db.(erasedSubjects := if r.subject in db.erasedSubjects then db.erasedSubjects else db.erasedSubjects[r.subject := now]);
    db := db.(accounts := db.accounts - {r.account});
    if !e.retainAbuse {
      db := db.(reports := WithoutValues(db.reports, who));
    }
    orphaned := set d | d in candidates && !Used(db.attachments, d);
    pictures := set d | d in sizes && !Pictured(db.avatars, d);
  }

  // SELECT address FROM identities
  method ListAddresses(who: set<Address>) returns (s: seq<Address>)
    ensures CalendarErasure.Members(s) == who
  {
    s := [];
    var todo := who;
    while todo != {}
      invariant todo <= who && CalendarErasure.Members(s) == who - todo
      decreases |todo|
    {
      var a :| a in todo;
      s, todo := s + [a], todo - {a};
    }
  }
}
