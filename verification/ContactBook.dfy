/** A user's emergency contacts and the order they are notified in. */
module ContactBook {

  /** `phone` stands for the hash and the cipher of the number, `name` for the display name. */
  datatype Contact = Contact(priority: int, phone: nat, name: string, relation: string)

  const MAX_CONTACTS := 3

  /** After every contact of the same or a smaller priority. */
  function Insert(c: Contact, s: seq<Contact>): seq<Contact> {
    if s == [] || c.priority < s[0].priority then [c] + s else [s[0]] + Insert(c, s[1..])
  }

  /** sort.Slice by priority.  The library sorts lists of up to twelve by insertion, so equal
      priorities keep their order. */
  function ByPriority(s: seq<Contact>): seq<Contact> {
    if s == [] then [] else Insert(s[|s| - 1], ByPriority(s[..|s| - 1]))
  }

  /** Whom an alert goes to: the first three by priority. */
  function NotifyList(s: seq<Contact>): seq<Contact> {
    var sorted := ByPriority(s);
    if |sorted| > MAX_CONTACTS then sorted[..MAX_CONTACTS] else sorted
  }

  predicate Ascending(s: seq<Contact>) {
    forall i, j :: 0 <= i < j < |s| ==> s[i].priority <= s[j].priority
  }

  lemma {:induction false} InsertKeepsAll(c: Contact, s: seq<Contact>)
    ensures multiset(Insert(c, s)) == multiset(s) + multiset{c}
  {
    if s != [] {
      InsertKeepsAll(c, s[1..]);
      assert s == [s[0]] + s[1..];
    }
  }

  lemma {:induction false} InsertSorts(c: Contact, s: seq<Contact>)
    requires Ascending(s)
    ensures Ascending(Insert(c, s))
  {
    if s != [] && c.priority >= s[0].priority {
      var rest := Insert(c, s[1..]);
      InsertSorts(c, s[1..]);
      InsertKeepsAll(c, s[1..]);
      forall i | 0 <= i < |rest|
        ensures s[0].priority <= rest[i].priority
      {
        assert rest[i] in multiset(rest);
        assert rest[i] == c || rest[i] in s[1..];
      }
    }
  }

  lemma {:induction false} SortSorts(s: seq<Contact>)
    ensures Ascending(ByPriority(s)) && multiset(ByPriority(s)) == multiset(s)
  {
    if s != [] {
      var k := |s| - 1;
      SortSorts(s[..k]);
      InsertSorts(s[k], ByPriority(s[..k]));
      InsertKeepsAll(s[k], ByPriority(s[..k]));
      assert s == s[..k] + [s[k]];
    }
  }

  lemma {:induction false} InsertLast(c: Contact, s: seq<Contact>)
    requires forall x :: x in s ==> x.priority <= c.priority
    ensures Insert(c, s) == s + [c]
  {
    if s != [] {
      InsertLast(c, s[1..]);
    }
  }

  /** Sorting a sorted list changes nothing, not even among equals. */
  lemma {:induction false} SortedIsFixed(s: seq<Contact>)
    requires Ascending(s)
    ensures ByPriority(s) == s
  {
    if s != [] {
      var k := |s| - 1;
      SortedIsFixed(s[..k]);
      InsertLast(s[k], s[..k]);
      assert s == s[..k] + [s[k]];
    }
  }

  lemma SortKeepsLength(s: seq<Contact>)
    ensures |ByPriority(s)| == |s|
  {
    SortSorts(s);
    assert |multiset(ByPriority(s))| == |multiset(s)|;
  }

  /** Main result: an alert reaches the first three of the user's contacts; `rest`, the contacts it
      leaves out, all come after those in priority. */
  lemma NotifiesTheFirstThree(s: seq<Contact>) returns (rest: seq<Contact>)
    ensures |NotifyList(s)| == (if |s| < MAX_CONTACTS then |s| else MAX_CONTACTS)
    ensures Ascending(NotifyList(s) + rest) && multiset(NotifyList(s) + rest) == multiset(s)
  {
    SortSorts(s);
    SortKeepsLength(s);
    rest := ByPriority(s)[|NotifyList(s)|..];
    assert NotifyList(s) + rest == ByPriority(s);
  }
}
