/** Editing a user's emergency contacts (internal/service/contact.go). */
module Contacts {
  import opened Wrappers
  import opened ContactBook

  datatype Status = Waitlisted | Onboarding | FillingContacts | Active

  /** The columns of a user row that the contact calls read and write; `phone` is the user's own hash. */
  datatype Book = Book(contacts: seq<Contact>, status: Status, phone: Option<nat>)

  datatype Reply =
    | Fine
    | PriorityConflict
    | DuplicatePriority
    | LimitReached
    | MinRequired
    | NotFound
    | BadCount
    | InvalidPhone
    | SelfContact
    | Crash

  predicate InRange(priority: int) {
    1 <= priority <= 3
  }

  function Priorities(s: seq<Contact>): set<int> {
    if s == [] then {} else Priorities(s[..|s| - 1]) + {s[|s| - 1].priority}
  }

  predicate HasPriority(s: seq<Contact>, p: int) {
    p in Priorities(s)
  }

  lemma PriorityOfMore(s: seq<Contact>, c: Contact)
    ensures Priorities(s + [c]) == Priorities(s) + {c.priority}
  {
    assert (s + [c])[..|s|] == s;
  }

  lemma {:induction false} PriorityInFront(c: Contact, s: seq<Contact>)
    ensures Priorities([c] + s) == Priorities(s) + {c.priority}
  {
    if s == [] {
      assert [c] + s == [] + [c];
      PriorityOfMore([], c);
    } else {
      var k := |s| - 1;
      PriorityInFront(c, s[..k]);
      assert ([c] + s)[..k + 1] == [c] + s[..k];
    }
  }

  lemma {:induction false} PriorityAt(s: seq<Contact>, i: nat)
    requires i < |s|
    ensures s[i].priority in Priorities(s)
  {
    var k := |s| - 1;
    if i < k {
      PriorityAt(s[..k], i);
    }
  }

  lemma {:induction false} PriorityHasIndex(s: seq<Contact>, p: int) returns (i: nat)
    requires HasPriority(s, p)
    ensures i < |s| && s[i].priority == p
  {
    var k := |s| - 1;
    if s[k].priority == p {
      i := k;
    } else {
      i := PriorityHasIndex(s[..k], p);
    }
  }

  /** The first contact has been added: the user becomes active. */
  function Activated(b: Book, contacts: seq<Contact>): Book {
    Book(contacts, if b.contacts == [] && b.status == FillingContacts then Active else b.status, b.phone)
  }

  // ----- the calls, as functions -----

  /** `production` turns the check against one's own number on; there the hash is read without a nil test. */
  function Created(b: Book, c: Contact, production: bool): (Book, Reply) {
    if !InRange(c.priority) then (b, PriorityConflict)
    else if |b.contacts| >= MAX_CONTACTS then (b, LimitReached)
    else if HasPriority(b.contacts, c.priority) then (b, PriorityConflict)
    else if production && b.phone.None? then (b, Crash)
    else if production && b.phone == Some(c.phone) then (b, SelfContact)
    else (Activated(b, b.contacts + [c]), Fine)
  }

  function Without(s: seq<Contact>, p: int): seq<Contact> {
    if s == [] then []
    else Without(s[..|s| - 1], p) + (if s[|s| - 1].priority == p then [] else [s[|s| - 1]])
  }

  function Renumbered(s: seq<Contact>): seq<Contact> {
    seq(|s|, i requires 0 <= i < |s| => s[i].(priority := i + 1))
  }

  function Deleted(b: Book, p: int): (Book, Reply) {
    if !InRange(p) then (b, PriorityConflict)
    else if |b.contacts| <= 1 then (b, MinRequired)
    else if !HasPriority(b.contacts, p) then (b, PriorityConflict)
    else (b.(contacts := Renumbered(ByPriority(Without(b.contacts, p)))), Fine)
  }

  /** The index of the first contact of priority p, or the length. */
  function FirstWith(s: seq<Contact>, p: int): (i: nat)
    ensures i <= |s| && (i < |s| ==> s[i].priority == p)
    ensures forall j :: 0 <= j < i ==> s[j].priority != p
  {
    if s == [] || s[0].priority == p then 0 else 1 + FirstWith(s[1..], p)
  }

  /** What an update gives for each field; an absent one stays. */
  datatype Fields = Fields(name: Option<string>, relation: Option<string>, phone: Option<nat>)

  function OrElse<T>(given: Option<T>, stored: T): T {
    if given.Some? then given.value else stored
  }

  function Updated(b: Book, p: int, f: Fields, production: bool): (Book, Reply) {
    var i := FirstWith(b.contacts, p);
    if b.contacts == [] then (b, NotFound)
    else if i == |b.contacts| then (b, PriorityConflict)
    else if production && f.phone.Some? && b.phone == f.phone then (b, SelfContact)
    else
      var c := b.contacts[i];
      var changed := c.(name := OrElse(f.name, c.name), relation := OrElse(f.relation, c.relation),
                        phone := OrElse(f.phone, c.phone));
      (b.(contacts := b.contacts[i := changed]), Fine)
  }

  /** The first loop of ReplaceContacts. */
  function PriorityFlaw(s: seq<Contact>): Reply {
    if s == [] then Fine
    else
      var before := PriorityFlaw(s[..|s| - 1]);
      var c := s[|s| - 1];
      if before != Fine then before
      else if !InRange(c.priority) then PriorityConflict
      else if HasPriority(s[..|s| - 1], c.priority) then DuplicatePriority
      else Fine
  }

  /** The second loop; `malformed` holds the numbers that ValidatePhone refuses. */
  function PhoneFlaw(s: seq<Contact>, own: Option<nat>, production: bool, malformed: set<nat>): Reply {
    if s == [] then Fine
    else
      var before := PhoneFlaw(s[..|s| - 1], own, production, malformed);
      var c := s[|s| - 1];
      if before != Fine then before
      else if c.phone in malformed then InvalidPhone
      else if production && own == Some(c.phone) then SelfContact
      else Fine
  }

  function Replaced(b: Book, list: seq<Contact>, production: bool, malformed: set<nat>): (Book, Reply) {
    if |list| < 1 || |list| > MAX_CONTACTS then (b, BadCount)
    else if PriorityFlaw(list) != Fine then (b, PriorityFlaw(list))
    else if PhoneFlaw(list, b.phone, production, malformed) != Fine then
      (b, PhoneFlaw(list, b.phone, production, malformed))
    else (Activated(b, ByPriority(list)), Fine)
  }

  // ----- the service -----

  /** One user row. */
  class UserRow {
    var contacts: seq<Contact>
    var status: Status
    var phone: Option<nat>

    function Contents(): Book
      reads this
    {
      Book(contacts, status, phone)
    }

    method CreateContact(c: Contact, production: bool) returns (reply: Reply)
      modifies this
      ensures (Contents(), reply) == Created(old(Contents()), c, production)
    {
      if c.priority < 1 || c.priority > 3 {
        return PriorityConflict;
      }
      if |contacts| >= 3 {
        return LimitReached;
      }
      var existing := contacts;
      for i := 0 to |existing|
        invariant Contents() == old(Contents()) && !HasPriority(existing[..i], c.priority)
      {
        assert existing[..i + 1] == existing[..i] + [existing[i]];
        PriorityOfMore(existing[..i], existing[i]);
        if existing[i].priority == c.priority {
          PriorityAt(existing, i);
          return PriorityConflict;
        }
      }
      assert existing[..|existing|] == existing;
      if production {
        if phone.None? {
          return Crash;
        }
        if phone == Some(c.phone) {
          return SelfContact;
        }
      }
      var isFirstContact := |contacts| == 0;
      contacts := contacts + [c];
      if isFirstContact && status == FillingContacts {
        status := Active;
      }
      return Fine;
    }

    method DeleteContact(p: int) returns (reply: Reply)
      modifies this
      ensures (Contents(), reply) == Deleted(old(Contents()), p)
    {
      if p < 1 || p > 3 {
        return PriorityConflict;
      }
      if |contacts| <= 1 {
        return MinRequired;
      }
      var existing := contacts;
      var newContacts: seq<Contact> := [];
      var found := false;
      for i := 0 to |existing|
        invariant Contents() == old(Contents())
        invariant newContacts == Without(existing[..i], p)
        invariant found <==> HasPriority(existing[..i], p)
      {
        var upTo := existing[..i + 1];
        assert upTo == existing[..i] + [existing[i]] && upTo[..i] == existing[..i];
        if existing[i].priority == p {
          found := true;
        } else {
          newContacts := newContacts + [existing[i]];
        }
      }
      assert existing[..|existing|] == existing;
      if !found {
        return PriorityConflict;
      }
      contacts := ByPriority(newContacts);
      RenumberInPlace();
      return Fine;
    }

    method RenumberInPlace()
      modifies this`contacts
      ensures contacts == Renumbered(old(contacts))
    {
      for i := 0 to |contacts|
        invariant |contacts| == |old(contacts)|
        invariant forall j :: 0 <= j < i ==> contacts[j] == old(contacts)[j].(priority := j + 1)
        invariant forall j :: i <= j < |contacts| ==> contacts[j] == old(contacts)[j]
      {
        contacts := contacts[i := contacts[i].(priority := i + 1)];
      }
    }

    method UpdateContact(p: int, f: Fields, production: bool) returns (reply: Reply)
      modifies this
      ensures (Contents(), reply) == Updated(old(Contents()), p, f, production)
    {
      if |contacts| == 0 {
        return NotFound;
      }
      var target := 0;
      while target < |contacts| && contacts[target].priority != p
        invariant 0 <= target <= |contacts|
        invariant forall j :: 0 <= j < target ==> contacts[j].priority != p
      {
        target := target + 1;
      }
      assert target == FirstWith(contacts, p);
      if target == |contacts| {
        return PriorityConflict;
      }
      var c := contacts[target];
      if f.name.Some? {
        c := c.(name := f.name.value);
      }
      if f.relation.Some? {
        c := c.(relation := f.relation.value);
      }
      if f.phone.Some? {
        if production && phone.Some? {
          if f.phone.value == phone.value {
            return SelfContact;
          }
        }
        c := c.(phone := f.phone.value);
      }
      contacts := contacts[target := c];
      return Fine;
    }

    method CheckPriorities(list: seq<Contact>) returns (reply: Reply)
      ensures reply == PriorityFlaw(list)
    {
      var prioritySet: set<int> := {};
      for i := 0 to |list|
        invariant PriorityFlaw(list[..i]) == Fine && prioritySet == Priorities(list[..i])
      {
        FlawStays(list, i + 1);
        var upTo := list[..i + 1];
        assert upTo[..i] == list[..i] && upTo == list[..i] + [list[i]];
        PriorityOfMore(list[..i], list[i]);
        if list[i].priority < 1 || list[i].priority > 3 {
          return PriorityConflict;
        }
        if list[i].priority in prioritySet {
          return DuplicatePriority;
        }
        prioritySet := prioritySet + {list[i].priority};
      }
      assert list[..|list|] == list;
      return Fine;
    }

    method CheckPhones(list: seq<Contact>, production: bool, malformed: set<nat>) returns (reply: Reply)
      ensures reply == PhoneFlaw(list, phone, production, malformed)
    {
      for i := 0 to |list|
        invariant PhoneFlaw(list[..i], phone, production, malformed) == Fine
      {
        PhoneFlawStays(list, i + 1, phone, production, malformed);
        var upTo := list[..i + 1];
        assert upTo[..i] == list[..i] && upTo[i] == list[i];
        if list[i].phone in malformed {
          return InvalidPhone;
        }
        if production && phone.Some? {
          if list[i].phone == phone.value {
            return SelfContact;
          }
        }
      }
      assert list[..|list|] == list;
      return Fine;
    }

    method ReplaceContacts(list: seq<Contact>, production: bool, malformed: set<nat>) returns (reply: Reply)
      modifies this
      ensures (Contents(), reply) == Replaced(old(Contents()), list, production, malformed)
    {
      if |list| < 1 || |list| > 3 {
        return BadCount;
      }
      reply := CheckPriorities(list);
      if reply != Fine {
        return;
      }
      reply := CheckPhones(list, production, malformed);
      if reply != Fine {
        return;
      }
      var wasEmpty := |contacts| == 0;
      contacts := ByPriority(list);
      if wasEmpty && status == FillingContacts {
        status := Active;
      }
    }
  }

  /** The first flaw decides. */
  lemma {:induction false} FlawStays(s: seq<Contact>, n: nat)
    requires n <= |s|
    ensures PriorityFlaw(s[..n]) != Fine ==> PriorityFlaw(s) == PriorityFlaw(s[..n])
  {
    if n < |s| {
      FlawStays(s[..|s| - 1], n);
      assert s[..|s| - 1][..n] == s[..n];
    } else {
      assert s[..n] == s;
    }
  }

  lemma {:induction false} PhoneFlawStays(s: seq<Contact>, n: nat, own: Option<nat>, production: bool,
                                          malformed: set<nat>)
    requires n <= |s|
    ensures PhoneFlaw(s[..n], own, production, malformed) != Fine
            ==> PhoneFlaw(s, own, production, malformed) == PhoneFlaw(s[..n], own, production, malformed)
  {
    if n < |s| {
      PhoneFlawStays(s[..|s| - 1], n, own, production, malformed);
      assert s[..|s| - 1][..n] == s[..n];
    } else {
      assert s[..n] == s;
    }
  }

  // ----- what every edit keeps -----

  predicate DistinctPriorities(s: seq<Contact>) {
    forall i, j :: 0 <= i < j < |s| ==> s[i].priority != s[j].priority
  }

  predicate Tidy(b: Book) {
    && |b.contacts| <= MAX_CONTACTS
    && (forall i :: 0 <= i < |b.contacts| ==> InRange(b.contacts[i].priority))
    && DistinctPriorities(b.contacts)
    && (b.status == Active ==> b.contacts != [])
  }

  predicate StrictlyAscending(s: seq<Contact>) {
    forall i, j :: 0 <= i < j < |s| ==> s[i].priority < s[j].priority
  }

  /** Priorities are exactly 1..n, in order. */
  predicate Normal(s: seq<Contact>) {
    forall i :: 0 <= i < |s| ==> s[i].priority == i + 1
  }

  lemma HeadBelow(h: Contact, s: seq<Contact>)
    requires StrictlyAscending(s) && forall p :: p in Priorities(s) ==> h.priority < p
    ensures StrictlyAscending([h] + s)
  {
    forall i | 0 <= i < |s|
      ensures h.priority < s[i].priority
    {
      PriorityAt(s, i);
    }
  }

  lemma InsertAtFront(c: Contact, s: seq<Contact>)
    requires StrictlyAscending(s) && (s == [] || c.priority < s[0].priority)
    ensures StrictlyAscending([c] + s) && Priorities([c] + s) == Priorities(s) + {c.priority}
  {
    PriorityInFront(c, s);
    AboveHead(c, s);
    HeadBelow(c, s);
  }

  lemma InsertBehind(h: Contact, rest: seq<Contact>, c: Contact, more: seq<Contact>)
    requires (forall p :: p in Priorities(rest) ==> h.priority < p) && h.priority < c.priority
    requires StrictlyAscending(more) && Priorities(more) == Priorities(rest) + {c.priority}
    ensures StrictlyAscending([h] + more) && Priorities([h] + more) == Priorities([h] + rest) + {c.priority}
  {
    HeadBelow(h, more);
    PriorityInFront(h, rest);
    PriorityInFront(h, more);
  }

  lemma TailIsStrict(s: seq<Contact>)
    requires StrictlyAscending(s) && s != []
    ensures StrictlyAscending(s[1..]) && forall p :: p in Priorities(s[1..]) ==> s[0].priority < p
  {
    AboveHead(s[0], s[1..]);
  }

  lemma {:induction false} InsertIsStrict(c: Contact, s: seq<Contact>)
    requires StrictlyAscending(s) && !HasPriority(s, c.priority)
    ensures StrictlyAscending(Insert(c, s)) && Priorities(Insert(c, s)) == Priorities(s) + {c.priority}
  {
    if s == [] || c.priority < s[0].priority {
      InsertAtFront(c, s);
    } else {
      var h, rest := s[0], s[1..];
      assert s == [h] + rest;
      PriorityInFront(h, rest);
      TailIsStrict(s);
      InsertIsStrict(c, rest);
      InsertBehind(h, rest, c, Insert(c, rest));
    }
  }

  lemma AboveHead(h: Contact, s: seq<Contact>)
    requires forall i :: 0 <= i < |s| ==> h.priority < s[i].priority
    ensures forall p :: p in Priorities(s) ==> h.priority < p
  {
    forall p | p in Priorities(s)
      ensures h.priority < p
    {
      var i := PriorityHasIndex(s, p);
    }
  }

  lemma InitIsDistinct(s: seq<Contact>)
    requires DistinctPriorities(s) && s != []
    ensures var k := |s| - 1;
            DistinctPriorities(s[..k]) && !HasPriority(s[..k], s[k].priority)
                && Priorities(s) == Priorities(s[..k]) + {s[k].priority}
  {
    var k := |s| - 1;
    if HasPriority(s[..k], s[k].priority) {
      var i := PriorityHasIndex(s[..k], s[k].priority);
    }
  }

  lemma {:induction false} SortIsStrict(s: seq<Contact>)
    requires DistinctPriorities(s)
    ensures StrictlyAscending(ByPriority(s)) && Priorities(ByPriority(s)) == Priorities(s)
  {
    if s != [] {
      var k := |s| - 1;
      InitIsDistinct(s);
      SortIsStrict(s[..k]);
      InsertIsStrict(s[k], ByPriority(s[..k]));
    }
  }

  lemma LastDistinct(s: seq<Contact>, c: Contact)
    requires DistinctPriorities(s) && !HasPriority(s, c.priority)
    ensures DistinctPriorities(s + [c])
  {
    forall i | 0 <= i < |s|
      ensures s[i].priority != c.priority
    {
      PriorityAt(s, i);
    }
  }

  lemma {:induction false} WithoutIsRest(s: seq<Contact>, p: int)
    requires DistinctPriorities(s)
    ensures var z := Without(s, p);
            && DistinctPriorities(z) && Priorities(z) == Priorities(s) - {p}
            && |z| == (if HasPriority(s, p) then |s| - 1 else |s|)
            && (!HasPriority(s, p) ==> z == s)
  {
    if s != [] {
      var k := |s| - 1;
      InitIsDistinct(s);
      WithoutIsRest(s[..k], p);
      WholeIfAbsent(s, p);
      var before := Without(s[..k], p);
      if s[k].priority == p {
        assert Without(s, p) == before;
      } else {
        LastDistinct(before, s[k]);
        PriorityOfMore(before, s[k]);
        assert Without(s, p) == before + [s[k]];
      }
    }
  }

  lemma {:induction false} WholeIfAbsent(s: seq<Contact>, p: int)
    ensures !HasPriority(s, p) ==> Without(s, p) == s
  {
    if s != [] {
      WholeIfAbsent(s[..|s| - 1], p);
      assert s == s[..|s| - 1] + [s[|s| - 1]];
    }
  }

  lemma {:induction false} WithoutTakesOne(s: seq<Contact>, p: int) returns (c: Contact)
    requires DistinctPriorities(s) && HasPriority(s, p)
    ensures c.priority == p && multiset(Without(s, p)) + multiset{c} == multiset(s)
  {
    var k := |s| - 1;
    assert s == s[..k] + [s[k]];
    InitIsDistinct(s);
    if s[k].priority == p {
      c := s[k];
      WithoutIsRest(s[..k], p);
    } else {
      c := WithoutTakesOne(s[..k], p);
    }
  }

  lemma RenumberedIsNormal(s: seq<Contact>)
    requires |s| <= MAX_CONTACTS
    ensures Normal(Renumbered(s)) && NotifyList(Renumbered(s)) == Renumbered(s)
  {
    SortedIsFixed(Renumbered(s));
  }

  lemma KeptAreSorted(s: seq<Contact>, p: int)
    requires DistinctPriorities(s)
    ensures var rest := Without(s, p);
            StrictlyAscending(ByPriority(rest)) && multiset(ByPriority(rest)) == multiset(rest)
                && |ByPriority(rest)| == |rest|
  {
    WithoutIsRest(s, p);
    SortIsStrict(Without(s, p));
    SortSorts(Without(s, p));
    SortKeepsLength(Without(s, p));
  }

  /** Main result: a delete takes out the one contact of that priority and numbers the others 1..n in their
      old order, which is the order they will be notified in. */
  lemma DeleteKeepsOrder(b: Book, p: int) returns (removed: Contact, kept: seq<Contact>)
    requires Tidy(b) && Deleted(b, p).1 == Fine
    ensures removed.priority == p && multiset(kept) + multiset{removed} == multiset(b.contacts)
    ensures StrictlyAscending(kept)
    ensures var z := Deleted(b, p).0.contacts;
            && |z| == |kept| == |b.contacts| - 1 && z != [] && Normal(z) && NotifyList(z) == z
            && forall i :: 0 <= i < |z| ==> z[i] == kept[i].(priority := i + 1)
  {
    removed := WithoutTakesOne(b.contacts, p);
    kept := ByPriority(Without(b.contacts, p));
    assert |Without(b.contacts, p)| == |b.contacts| - 1 by { WithoutIsRest(b.contacts, p); }
    KeptAreSorted(b.contacts, p);
    RenumberedIsNormal(kept);
  }

  lemma CreatedThenWithout(b: Book, c: Contact)
    requires Tidy(b) && !HasPriority(b.contacts, c.priority)
    ensures Without(b.contacts + [c], c.priority) == b.contacts
    ensures HasPriority(b.contacts + [c], c.priority)
  {
    WithoutIsRest(b.contacts, c.priority);
    PriorityOfMore(b.contacts, c);
    assert (b.contacts + [c])[..|b.contacts|] == b.contacts;
  }

  lemma RenumberingChangesIff(s: seq<Contact>)
    ensures Renumbered(ByPriority(s)) == s <==> Normal(s)
  {
    SortKeepsLength(s);
    if Normal(s) {
      SortedIsFixed(s);
    } else {
      var i :| 0 <= i < |s| && s[i].priority != i + 1;
      assert Renumbered(ByPriority(s))[i] != s[i];
    }
  }

  /** Deleting the contact just added gives the list back exactly if the list was numbered 1..n. */
  lemma DeleteUndoesCreateIff(b: Book, c: Contact, production: bool)
    requires Tidy(b) && b.contacts != [] && Created(b, c, production).1 == Fine
    ensures var z := Deleted(Created(b, c, production).0, c.priority);
            z.1 == Fine && (z.0 == b <==> Normal(b.contacts))
  {
    CreatedThenWithout(b, c);
    RenumberingChangesIff(b.contacts);
  }

  lemma {:induction false} SoundList(s: seq<Contact>)
    requires PriorityFlaw(s) == Fine
    ensures DistinctPriorities(s) && forall i :: 0 <= i < |s| ==> InRange(s[i].priority)
  {
    if s != [] {
      var k := |s| - 1;
      SoundList(s[..k]);
      LastDistinct(s[..k], s[k]);
      assert s == s[..k] + [s[k]];
      assert forall i :: 0 <= i < k ==> s[..k][i] == s[i];
    }
  }

  lemma AllInRange(s: seq<Contact>, z: seq<Contact>)
    requires Priorities(z) <= Priorities(s) && forall i :: 0 <= i < |s| ==> InRange(s[i].priority)
    ensures forall i :: 0 <= i < |z| ==> InRange(z[i].priority)
  {
    forall i | 0 <= i < |z|
      ensures InRange(z[i].priority)
    {
      PriorityAt(z, i);
      var j := PriorityHasIndex(s, z[i].priority);
    }
  }

  datatype Edit =
    | Create(contact: Contact)
    | Delete(priority: int)
    | Update(priority: int, fields: Fields)
    | Replace(list: seq<Contact>, malformed: set<nat>)

  function Edited(b: Book, e: Edit, production: bool): (Book, Reply) {
    match e
    case Create(c) => Created(b, c, production)
    case Delete(p) => Deleted(b, p)
    case Update(p, f) => Updated(b, p, f, production)
    case Replace(list, malformed) => Replaced(b, list, production, malformed)
  }

  lemma ReplaceIsSorted(b: Book, list: seq<Contact>, production: bool, malformed: set<nat>)
    requires Replaced(b, list, production, malformed).1 == Fine
    ensures var z := Replaced(b, list, production, malformed).0;
            && StrictlyAscending(z.contacts) && multiset(z.contacts) == multiset(list) && z.contacts != []
            && (forall i :: 0 <= i < |z.contacts| ==> InRange(z.contacts[i].priority))
            && |z.contacts| == |list| <= MAX_CONTACTS
  {
    SoundList(list);
    SortIsStrict(list);
    SortSorts(list);
    SortKeepsLength(list);
    AllInRange(list, ByPriority(list));
  }

  function Rank(s: Status): nat {
    match s
    case Waitlisted => 0
    case Onboarding => 1
    case FillingContacts => 2
    case Active => 3
  }

  lemma CreateKeepsTidy(b: Book, c: Contact, production: bool)
    requires Tidy(b)
    ensures Tidy(Created(b, c, production).0)
  {
    if Created(b, c, production).1 == Fine {
      LastDistinct(b.contacts, c);
    }
  }

  lemma DeleteKeepsTidy(b: Book, p: int)
    requires Tidy(b)
    ensures Tidy(Deleted(b, p).0) && (b.contacts != [] ==> Deleted(b, p).0.contacts != [])
  {
    if Deleted(b, p).1 == Fine {
      var removed, kept := DeleteKeepsOrder(b, p);
    }
  }

  lemma UpdateKeepsTidy(b: Book, p: int, f: Fields, production: bool)
    requires Tidy(b)
    ensures Tidy(Updated(b, p, f, production).0)
  {
  }

  /** An update touches the one contact of that priority, and of that only what was given. */
  lemma UpdateIsLocal(b: Book, p: int, f: Fields, production: bool)
    requires Tidy(b) && Updated(b, p, f, production).1 == Fine
    ensures var z := Updated(b, p, f, production).0;
            && HasPriority(b.contacts, p) && |z.contacts| == |b.contacts| && z.status == b.status
            && (forall i :: 0 <= i < |z.contacts| ==> z.contacts[i].priority == b.contacts[i].priority)
            && (forall i :: 0 <= i < |z.contacts| && z.contacts[i].priority != p ==> z.contacts[i] == b.contacts[i])
            && (forall i :: 0 <= i < |z.contacts| && z.contacts[i].priority == p ==>
                  && z.contacts[i].phone == OrElse(f.phone, b.contacts[i].phone)
                  && z.contacts[i].name == OrElse(f.name, b.contacts[i].name)
                  && z.contacts[i].relation == OrElse(f.relation, b.contacts[i].relation))
  {
    PriorityAt(b.contacts, FirstWith(b.contacts, p));
  }

  lemma ReplaceKeepsTidy(b: Book, list: seq<Contact>, production: bool, malformed: set<nat>)
    requires Tidy(b)
    ensures Tidy(Replaced(b, list, production, malformed).0)
  {
    if Replaced(b, list, production, malformed).1 == Fine {
      ReplaceIsSorted(b, list, production, malformed);
    }
  }

  /** Main result: every edit keeps at most three contacts with distinct priorities in 1..3; a list that is
      not empty never becomes empty; an active user has a contact; a status never falls; and a refused
      edit changes nothing. */
  lemma EditKeepsTidy(b: Book, e: Edit, production: bool)
    requires Tidy(b)
    ensures var (z, reply) := Edited(b, e, production);
            && Tidy(z) && (b.contacts != [] ==> z.contacts != []) && z.phone == b.phone
            && Rank(b.status) <= Rank(z.status)
            && (z.status != b.status ==> b.contacts == [] && b.status == FillingContacts && z.status == Active)
            && (reply != Fine ==> z == b)
  {
    match e
    case Create(c) => CreateKeepsTidy(b, c, production);
    case Delete(p) => DeleteKeepsTidy(b, p);
    case Update(p, f) => UpdateKeepsTidy(b, p, f, production);
    case Replace(list, malformed) => ReplaceKeepsTidy(b, list, production, malformed);
  }
}
