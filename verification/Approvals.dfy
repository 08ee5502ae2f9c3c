/** What a user approved, and the canonical form that binds execution to it (internal/domain/approval). */
module Approvals {
  import opened Text
  import opened Money

  datatype Status = Pending | Approved | Rejected | Expired | Consumed | ReapprovalRequired

  datatype Item = Item(id: string, quantity: int, unitPrice: int)

  /** SHA-256, taken as injective: a digest is identified with the text it was computed from. */
  datatype Digest = Digest(text: string)

  /** The exact terms a user consented to. `parent` is the purchase or payment intent it belongs to;
      a payment's approval has no quote. */
  datatype Approval = Approval(
    parent: nat,
    quote: nat,
    user: string,
    merchant: string,
    amount: Amount,
    alias: string,
    itemsHash: Digest,
    status: Status,
    expiresAt: int)

  predicate IsExpired(a: Approval, now: int) {
    now > a.expiresAt
  }

  predicate Executable(a: Approval, now: int) {
    a.status == Approved && !IsExpired(a, now)
  }

  /** Merchant, items, alias and currency exactly; the total within tolerance. */
  predicate Matches(a: Approval, merchant: string, hash: Digest, amount: Amount, alias: string, tolerance: Amount) {
    && a.merchant == merchant
    && a.itemsHash == hash
    && a.alias == alias
    && a.amount.currency == amount.currency && a.amount.currency == tolerance.currency
    && a.amount.WithinTolerance(amount, tolerance)
  }

  // ----- ordering by product id

  /** Byte-wise string order. */
  predicate Less(a: string, b: string) {
    if b == "" then false
    else if a == "" then true
    else if a[0] != b[0] then a[0] < b[0]
    else Less(a[1..], b[1..])
  }

  lemma {:induction false} LessIsTotal(a: string, b: string)
    ensures a == b || Less(a, b) || Less(b, a)
    ensures Less(a, b) ==> a != b && !Less(b, a)
  {
    if a != "" && b != "" && a[0] == b[0] {
      LessIsTotal(a[1..], b[1..]);
      assert a == [a[0]] + a[1..] && b == [b[0]] + b[1..];
    }
  }

  lemma {:induction false} LessIsTransitive(a: string, b: string, c: string)
    requires Less(a, b) && Less(b, c)
    ensures Less(a, c)
  {
    if a != "" && a[0] == b[0] == c[0] {
      LessIsTransitive(a[1..], b[1..], c[1..]);
    }
  }

  function Insert(x: Item, s: seq<Item>): seq<Item> {
    if s == [] || Less(x.id, s[0].id) then [x] + s else [s[0]] + Insert(x, s[1..])
  }

  /** The items by ascending id, as sort.Slice leaves them; unique when ids are distinct. */
  function SortById(s: seq<Item>): seq<Item> {
    if s == [] then [] else Insert(s[0], SortById(s[1..]))
  }

  ghost predicate Ascending(s: seq<Item>) {
    forall i, j | 0 <= i < j < |s| :: Less(s[i].id, s[j].id)
  }

  ghost predicate DistinctIds(s: seq<Item>) {
    forall i, j | 0 <= i < j < |s| :: s[i].id != s[j].id
  }

  lemma {:induction false} InsertKeeps(x: Item, s: seq<Item>)
    ensures multiset(Insert(x, s)) == multiset{x} + multiset(s)
  {
    if s != [] {
      assert s == [s[0]] + s[1..];
      if !Less(x.id, s[0].id) {
        InsertKeeps(x, s[1..]);
      }
    }
  }

  /** Whatever precedes every element before an insertion precedes every element after it. */
  lemma {:induction false} InsertMember(x: Item, s: seq<Item>, j: nat)
    requires j < |Insert(x, s)|
    ensures Insert(x, s)[j] == x || Insert(x, s)[j] in s
  {
    var t := Insert(x, s);
    InsertKeeps(x, s);
    assert t[j] in multiset(t);
  }

  lemma {:induction false} InsertAscends(x: Item, s: seq<Item>)
    requires Ascending(s) && forall y | y in s :: y.id != x.id
    ensures Ascending(Insert(x, s))
  {
    if s != [] {
      LessIsTotal(x.id, s[0].id);
      if Less(x.id, s[0].id) {
        forall j | 0 < j < |s|
          ensures Less(x.id, s[j].id)
        {
          LessIsTransitive(x.id, s[0].id, s[j].id);
        }
      } else {
        InsertAscends(x, s[1..]);
        var rest := Insert(x, s[1..]);
        forall j | 0 <= j < |rest|
          ensures Less(s[0].id, rest[j].id)
        {
          InsertMember(x, s[1..], j);
        }
      }
    }
  }

  lemma {:induction false} SortSorts(s: seq<Item>)
    ensures multiset(SortById(s)) == multiset(s)
    ensures DistinctIds(s) ==> Ascending(SortById(s))
  {
    if s != [] {
      SortSorts(s[1..]);
      assert s == [s[0]] + s[1..];
      var rest := SortById(s[1..]);
      InsertKeeps(s[0], rest);
      if DistinctIds(s) {
        forall y | y in rest
          ensures y.id != s[0].id
        {
          assert y in multiset(rest);
          assert y in s[1..];
        }
        InsertAscends(s[0], rest);
      }
    }
  }

  /** The first of an ascending list precedes any other element. */
  lemma FirstIsLeast(a: seq<Item>, x: Item)
    requires Ascending(a) && x in a
    ensures x == a[0] || Less(a[0].id, x.id)
  {
  }

  lemma {:induction false} SameFirst(a: seq<Item>, b: seq<Item>)
    requires Ascending(a) && Ascending(b) && a != [] && b != [] && a[0] in b && b[0] in a
    ensures a[0] == b[0]
  {
    FirstIsLeast(a, b[0]);
    FirstIsLeast(b, a[0]);
    LessIsTotal(a[0].id, b[0].id);
  }

  lemma DropFirst(a: seq<Item>)
    requires a != []
    ensures multiset(a[1..]) == multiset(a) - multiset{a[0]}
  {
    assert a == [a[0]] + a[1..];
  }

  /** Two ascending lists with the same elements are the same list. */
  lemma {:induction false} AscendingUnique(a: seq<Item>, b: seq<Item>)
    requires Ascending(a) && Ascending(b) && multiset(a) == multiset(b)
    ensures a == b
    decreases |a|
  {
    assert |multiset(a)| == |a| && |multiset(b)| == |b|;
    if a != [] {
      assert a[0] in multiset(b) && b[0] in multiset(a);
      SameFirst(a, b);
      DropFirst(a);
      DropFirst(b);
      AscendingUnique(a[1..], b[1..]);
      assert a == [a[0]] + a[1..] && b == [b[0]] + b[1..];
    }
  }

  // ----- the canonical text

  const MERCHANT := "merchant="
  const ITEM := "item="
  const CURRENCY := "currency="
  const PAYMENT := "payment="

  /** An item line after its tag, and whatever follows it. */
  function Fields(it: Item, rest: string): string {
    it.id + [':'] + (IntText(it.quantity) + [':'] + (IntText(it.unitPrice) + [';'] + rest))
  }

  /** The text after the merchant line. */
  function Tail(s: seq<Item>, currency: string, alias: string): string {
    if s == [] then CURRENCY + (currency + [';'] + (PAYMENT + alias))
    else ITEM + Fields(s[0], Tail(s[1..], currency, alias))
  }

  function CanonicalText(merchant: string, items: seq<Item>, currency: string, alias: string): string {
    MERCHANT + (merchant + [';'] + Tail(SortById(items), currency, alias))
  }

  function CanonicalDigest(merchant: string, items: seq<Item>, currency: string, alias: string): Digest {
    Digest(CanonicalText(merchant, items, currency, alias))
  }

  lemma {:induction false} Append3(a: string, b: string, c: string)
    ensures a + b + c == a + (b + c)
  {
  }

  lemma {:induction false} FieldsAppend(it: Item, rest: string)
    ensures Fields(it, rest) == Fields(it, "") + rest
  {
    var p, q := IntText(it.unitPrice) + [';'], IntText(it.quantity) + [':'];
    assert p + "" == p;
    Append3(q, p, rest);
    Append3(it.id + [':'], q + p, rest);
  }

  /** CanonicalHash: a sorted copy, then one line appended per item. */
  method CanonicalHash(merchant: string, items: seq<Item>, currency: string, alias: string) returns (d: Digest)
    ensures d == CanonicalDigest(merchant, items, currency, alias)
  {
    var sorted := SortById(items);
    var b := MERCHANT + (merchant + [';']);
    Append3(MERCHANT, merchant + [';'], Tail(sorted, currency, alias));
    for i := 0 to |sorted|
      invariant b + Tail(sorted[i..], currency, alias) == CanonicalText(merchant, items, currency, alias)
    {
      var rest := Tail(sorted[i + 1..], currency, alias);
      assert sorted[i..][1..] == sorted[i + 1..];
      FieldsAppend(sorted[i], rest);
      Append3(ITEM, Fields(sorted[i], ""), rest);
      Append3(b, ITEM + Fields(sorted[i], ""), rest);
      b := b + (ITEM + Fields(sorted[i], ""));
    }
    b := b + (CURRENCY + (currency + [';'] + (PAYMENT + alias)));
    return Digest(b);
  }

  // ----- unambiguity

  /** The first letter tells an item line from the currency line. */
  lemma {:induction false} TailHead(s: seq<Item>, currency: string, alias: string)
    ensures var t := Tail(s, currency, alias); t != "" && t[0] == if s == [] then 'c' else 'i'
  {
    assert ITEM[0] == 'i' && CURRENCY[0] == 'c';
  }

  lemma {:induction false} FieldsInjective(x: Item, r: string, y: Item, s: string)
    requires ':' !in x.id && ':' !in y.id && Fields(x, r) == Fields(y, s)
    ensures x == y && r == s
  {
    IntTextShape(x.quantity);
    IntTextShape(y.quantity);
    IntTextShape(x.unitPrice);
    IntTextShape(y.unitPrice);
    var xp, yp := IntText(x.unitPrice) + [';'] + r, IntText(y.unitPrice) + [';'] + s;
    var xq, yq := IntText(x.quantity) + [':'] + xp, IntText(y.quantity) + [':'] + yp;
    SplitUnique(x.id, y.id, xq, yq, ':');
    SplitUnique(IntText(x.quantity), IntText(y.quantity), xp, yp, ':');
    SplitUnique(IntText(x.unitPrice), IntText(y.unitPrice), r, s, ';');
    IntTextInjective(x.quantity, y.quantity);
    IntTextInjective(x.unitPrice, y.unitPrice);
  }

  lemma {:induction false} DropPrefix(p: string, a: string, b: string)
    requires p + a == p + b
    ensures a == b
  {
    assert a == (p + a)[|p|..] && b == (p + b)[|p|..];
  }

  lemma {:induction false} EndInjective(c: string, p: string, d: string, q: string)
    requires CURRENCY + (c + [';'] + (PAYMENT + p)) == CURRENCY + (d + [';'] + (PAYMENT + q))
    requires ';' !in c && ';' !in d
    ensures c == d && p == q
  {
    DropPrefix(CURRENCY, c + [';'] + (PAYMENT + p), d + [';'] + (PAYMENT + q));
    SplitUnique(c, d, PAYMENT + p, PAYMENT + q, ';');
    DropPrefix(PAYMENT, p, q);
  }

  lemma {:induction false} ItemInjective(x: Item, r: string, y: Item, s: string)
    requires ITEM + Fields(x, r) == ITEM + Fields(y, s) && ':' !in x.id && ':' !in y.id
    ensures x == y && r == s
  {
    DropPrefix(ITEM, Fields(x, r), Fields(y, s));
    FieldsInjective(x, r, y, s);
  }

  ghost predicate PlainIds(s: seq<Item>) {
    forall i | 0 <= i < |s| :: ':' !in s[i].id
  }

  lemma {:induction false} FirstsAgree(xs: seq<Item>, c: string, p: string, ys: seq<Item>, d: string, q: string)
    requires xs != [] && ys != [] && Tail(xs, c, p) == Tail(ys, d, q)
    requires ':' !in xs[0].id && ':' !in ys[0].id
    ensures xs[0] == ys[0] && Tail(xs[1..], c, p) == Tail(ys[1..], d, q)
  {
    ItemInjective(xs[0], Tail(xs[1..], c, p), ys[0], Tail(ys[1..], d, q));
  }

  lemma {:induction false} SameCons(xs: seq<Item>, ys: seq<Item>)
    requires xs != [] && ys != [] && xs[0] == ys[0] && xs[1..] == ys[1..]
    ensures xs == ys
  {
    assert xs == [xs[0]] + xs[1..] && ys == [ys[0]] + ys[1..];
  }

  /** A tail determines its items, currency and alias. */
  lemma {:induction false} TailInjective(xs: seq<Item>, c: string, p: string, ys: seq<Item>, d: string, q: string)
    requires Tail(xs, c, p) == Tail(ys, d, q)
    requires ';' !in c && ';' !in d && PlainIds(xs) && PlainIds(ys)
    ensures xs == ys && c == d && p == q
    decreases |xs|
  {
    TailHead(xs, c, p);
    TailHead(ys, d, q);
    if xs == [] {
      EndInjective(c, p, d, q);
    } else {
      FirstsAgree(xs, c, p, ys, d, q);
      TailInjective(xs[1..], c, p, ys[1..], d, q);
      SameCons(xs, ys);
    }
  }

  /** No delimiter where it would be misread. */
  ghost predicate Plain(merchant: string, items: seq<Item>, currency: string) {
    ';' !in merchant && ';' !in currency && PlainIds(items)
  }

  lemma {:induction false} SortedIsPlain(s: seq<Item>)
    requires PlainIds(s)
    ensures PlainIds(SortById(s))
  {
    var t := SortById(s);
    SortSorts(s);
    forall i | 0 <= i < |t|
      ensures ':' !in t[i].id
    {
      assert t[i] in multiset(t);
      assert t[i] in s;
    }
  }

  /** Equal digests bind the same merchant, currency, alias and items. */
  lemma {:induction false} DigestDetermines(m: string, a: seq<Item>, c: string, p: string,
                                            n: string, b: seq<Item>, d: string, q: string)
    requires Plain(m, a, c) && Plain(n, b, d)
    requires CanonicalDigest(m, a, c, p) == CanonicalDigest(n, b, d, q)
    ensures m == n && c == d && p == q && multiset(a) == multiset(b)
  {
    var x, y := SortById(a), SortById(b);
    SortSorts(a);
    SortSorts(b);
    SortedIsPlain(a);
    SortedIsPlain(b);
    DropPrefix(MERCHANT, m + [';'] + Tail(x, c, p), n + [';'] + Tail(y, d, q));
    SplitUnique(m, n, Tail(x, c, p), Tail(y, d, q), ';');
    TailInjective(x, c, p, y, d, q);
  }

  /** The canonical form is unambiguous: with distinct ids, two inputs share a digest exactly when they
      agree on merchant, currency and alias and their items are a permutation of each other. */
  lemma DigestUnambiguous(m: string, a: seq<Item>, c: string, p: string,
                          n: string, b: seq<Item>, d: string, q: string)
    requires Plain(m, a, c) && Plain(n, b, d) && DistinctIds(a) && DistinctIds(b)
    ensures CanonicalDigest(m, a, c, p) == CanonicalDigest(n, b, d, q)
            <==> m == n && c == d && p == q && multiset(a) == multiset(b)
  {
    if CanonicalDigest(m, a, c, p) == CanonicalDigest(n, b, d, q) {
      DigestDetermines(m, a, c, p, n, b, d, q);
    }
    if m == n && c == d && p == q && multiset(a) == multiset(b) {
      SortSorts(a);
      SortSorts(b);
      AscendingUnique(SortById(a), SortById(b));
    }
  }
}
