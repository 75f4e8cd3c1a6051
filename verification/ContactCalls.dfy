/** When exactly each edit of the contacts is accepted, why it is refused, and what it leaves, said of the row
    and the request alone. */
module ContactCalls {
  import opened Wrappers
  import opened ContactBook
  import opened Contacts

  predicate Uses(s: seq<Contact>, p: int) {
    exists i :: 0 <= i < |s| && s[i].priority == p
  }

  lemma UsesIff(s: seq<Contact>, p: int)
    ensures HasPriority(s, p) <==> Uses(s, p)
  {
    if HasPriority(s, p) {
      var i := PriorityHasIndex(s, p);
    }
    if i :| 0 <= i < |s| && s[i].priority == p {
      PriorityAt(s, i);
    }
  }

  /** A user who has filled in the first contact becomes active. */
  function StatusWith(b: Book): Status {
    if b.contacts == [] && b.status == FillingContacts then Active else b.status
  }

  /** Main result: a contact is added, as given and at the end, exactly if its priority is 1, 2 or 3 and free, there
      are fewer than three, and in production the user has a phone and the contact's is another one. */
  lemma CreateAnswers(b: Book, c: Contact, production: bool)
    ensures var (z, reply) := Created(b, c, production);
            var legal := 1 <= c.priority <= 3; var room := |b.contacts| < 3; var free := !Uses(b.contacts, c.priority);
            && (reply == Fine <==>
                  && legal && room && free
                  && (production ==> b.phone.Some? && b.phone.value != c.phone))
            && (reply == PriorityConflict <==> !legal || (room && !free))
            && (reply == LimitReached <==> legal && !room)
            && (reply == Crash <==> legal && room && free && production && b.phone == None)
            && (reply == SelfContact <==> legal && room && free && production && b.phone == Some(c.phone))
            && z == (if reply == Fine then Book(b.contacts + [c], StatusWith(b), b.phone) else b)
  {
    UsesIff(b.contacts, c.priority);
  }

  /** A contact is deleted exactly if it is there and not the only one. */
  lemma DeleteAnswers(b: Book, p: int)
    ensures var (z, reply) := Deleted(b, p); var legal := 1 <= p <= 3;
            && (reply == Fine <==> legal && |b.contacts| >= 2 && Uses(b.contacts, p))
            && (reply == MinRequired <==> legal && |b.contacts| < 2)
            && (reply == PriorityConflict <==> !legal || (|b.contacts| >= 2 && !Uses(b.contacts, p)))
            && z.status == b.status && z.phone == b.phone && (reply != Fine ==> z == b)
  {
    UsesIff(b.contacts, p);
  }

  /** A contact is updated exactly if it is there and, in production, does not get the user's own phone; of the first
      of its priority each given field is replaced, and nothing else is. */
  lemma UpdateAnswers(b: Book, p: int, f: Fields, production: bool) returns (i: nat)
    ensures var (z, reply) := Updated(b, p, f, production);
            var own := production && f.phone.Some? && f.phone == b.phone;
            && (reply == NotFound <==> b.contacts == [])
            && (reply == PriorityConflict <==> b.contacts != [] && !Uses(b.contacts, p))
            && (reply == SelfContact <==> Uses(b.contacts, p) && own)
            && (reply == Fine <==> Uses(b.contacts, p) && !own)
            && (reply != Fine ==> z == b)
            && (reply == Fine ==>
                  && i < |b.contacts| && b.contacts[i].priority == p && !Uses(b.contacts[..i], p)
                  && z == b.(contacts := b.contacts[i := z.contacts[i]])
                  && z.contacts[i].priority == p
                  && z.contacts[i].name == (if f.name.Some? then f.name.value else b.contacts[i].name)
                  && z.contacts[i].relation == (if f.relation.Some? then f.relation.value else b.contacts[i].relation)
                  && z.contacts[i].phone == (if f.phone.Some? then f.phone.value else b.contacts[i].phone))
  {
    i := FirstWith(b.contacts, p);
    assert i < |b.contacts| ==> Uses(b.contacts, p);
  }

  /** Entry i of a new list has a legal priority that no earlier one has. */
  predicate SoundAt(s: seq<Contact>, i: nat)
    requires i < |s|
  {
    1 <= s[i].priority <= 3 && forall k :: 0 <= k < i ==> s[k].priority != s[i].priority
  }

  predicate PhoneAt(s: seq<Contact>, i: nat, own: Option<nat>, production: bool, malformed: set<nat>)
    requires i < |s|
  {
    s[i].phone !in malformed && (production ==> own != Some(s[i].phone))
  }

  /** The first unsound entry decides. */
  lemma {:induction false} PriorityFlawIsFirst(s: seq<Contact>) returns (i: nat)
    ensures i <= |s| && (forall k: nat :: k < i ==> SoundAt(s, k)) && (i < |s| ==> !SoundAt(s, i))
    ensures PriorityFlaw(s) == if i == |s| then Fine else if 1 <= s[i].priority <= 3 then DuplicatePriority
                               else PriorityConflict
  {
    i := 0;
    if s != [] {
      var n := |s| - 1;
      i := PriorityFlawIsFirst(s[..n]);
      assert forall k: nat :: k < n ==> (SoundAt(s, k) <==> SoundAt(s[..n], k));
      UsesIff(s[..n], s[n].priority);
      if i == n && SoundAt(s, n) {
        i := n + 1;
      }
    }
  }

  lemma {:induction false} PhoneFlawIsFirst(s: seq<Contact>, own: Option<nat>, production: bool, malformed: set<nat>)
    returns (i: nat)
    ensures i <= |s| && (forall k: nat :: k < i ==> PhoneAt(s, k, own, production, malformed))
    ensures i < |s| ==> !PhoneAt(s, i, own, production, malformed)
    ensures PhoneFlaw(s, own, production, malformed)
            == if i == |s| then Fine else if s[i].phone in malformed then InvalidPhone else SelfContact
  {
    i := 0;
    if s != [] {
      var n := |s| - 1;
      i := PhoneFlawIsFirst(s[..n], own, production, malformed);
      assert forall k: nat :: k < n ==>
                 (PhoneAt(s, k, own, production, malformed) <==> PhoneAt(s[..n], k, own, production, malformed));
      if i == n && PhoneAt(s, n, own, production, malformed) {
        i := n + 1;
      }
    }
  }

  /** Main result: a list replaces the contacts, sorted, exactly if it has one to three entries, legal and distinct
      priorities, well-formed phones and, in production, not the user's own; otherwise the first unsound priority
      answers, or without one the first bad phone, and nothing changes. */
  lemma ReplaceAnswers(b: Book, list: seq<Contact>, production: bool, malformed: set<nat>) returns (i: nat, k: nat)
    ensures var (z, reply) := Replaced(b, list, production, malformed); var n := |list|; var counts := 1 <= n <= 3;
            && i <= n && (forall x: nat :: x < i ==> SoundAt(list, x)) && (i < n ==> !SoundAt(list, i))
            && k <= n && (forall x: nat :: x < k ==> PhoneAt(list, x, b.phone, production, malformed))
            && (k < n ==> !PhoneAt(list, k, b.phone, production, malformed))
            && (reply == Fine <==> counts && i == n && k == n)
            && (reply == BadCount <==> !counts)
            && (reply == DuplicatePriority <==> counts && i < n && 1 <= list[i].priority <= 3)
            && (reply == PriorityConflict <==> counts && i < n && !(1 <= list[i].priority <= 3))
            && (reply == InvalidPhone <==> counts && i == n && k < n && list[k].phone in malformed)
            && (reply == SelfContact <==> counts && i == n && k < n && list[k].phone !in malformed)
            && (reply != Fine ==> z == b)
            && (reply == Fine ==> z.status == StatusWith(b) && z.phone == b.phone
                                  && multiset(z.contacts) == multiset(list) && StrictlyAscending(z.contacts))
  {
    i := PriorityFlawIsFirst(list);
    k := PhoneFlawIsFirst(list, b.phone, production, malformed);
    if Replaced(b, list, production, malformed).1 == Fine {
      ReplaceIsSorted(b, list, production, malformed);
    }
  }
}
