/** Writing JSON with sorted keys.
  *
  * The fields of every object, however nested, are put in the order of their names' text
  * before they are written.  Names are compared character by character; a proper prefix comes
  * first.
  *
  * Sorting is by insertion.  `SortsTo` makes its details irrelevant: fields with different
  * names have one ascending order, and sorting ends there from any other.
  */
module SortedJson {
  import opened Json
  import opened Sequences

  predicate TextLess(a: string, b: string) {
    b != [] && (a == [] || a[0] < b[0] || (a[0] == b[0] && TextLess(a[1..], b[1..])))
  }

  function InsertField(f: (string, Value), fields: seq<(string, Value)>): (r: seq<(string, Value)>)
    ensures multiset(r) == multiset(fields) + multiset{f}
  {
    if fields == [] || TextLess(f.0, fields[0].0) then [f] + fields
    else
      assert fields == [fields[0]] + fields[1..];
      [fields[0]] + InsertField(f, fields[1..])
  }

  function SortFields(fields: seq<(string, Value)>): (r: seq<(string, Value)>)
    ensures multiset(r) == multiset(fields)
  {
    if fields == [] then []
    else
      assert fields == [fields[0]] + fields[1..];
      InsertField(fields[0], SortFields(fields[1..]))
  }

  function SortKeys(v: Value): Value {
    match v
    case Int(_) => v
    case Bool(_) => v
    case Arr(items) => Arr(seq(|items|, i requires 0 <= i < |items| => SortKeys(items[i])))
    case Obj(fields) => Obj(SortFields(SortEach(fields)))
  }

  function SortEach(fields: seq<(string, Value)>): (r: seq<(string, Value)>)
    ensures |r| == |fields|
  {
    seq(|fields|, i requires 0 <= i < |fields| => SortField(fields[i]))
  }

  function SortField(f: (string, Value)): (string, Value) {
    (f.0, SortKeys(f.1))
  }

  function Dump(v: Value): string {
    Print(SortKeys(v))
  }

  // ---------- the order of the names ----------

  lemma {:induction false} TextTotal(a: string, b: string)
    ensures a == b || TextLess(a, b) || TextLess(b, a)
    ensures !(TextLess(a, b) && TextLess(b, a))
  {
    if a != [] && b != [] && a[0] == b[0] {
      TextTotal(a[1..], b[1..]);
      assert a == [a[0]] + a[1..] && b == [b[0]] + b[1..];
    }
  }

  lemma {:induction false} TextTransitive(a: string, b: string, c: string)
    requires TextLess(a, b) && TextLess(b, c)
    ensures TextLess(a, c)
  {
    if a != [] && a[0] == b[0] && b[0] == c[0] {
      TextTransitive(a[1..], b[1..], c[1..]);
    }
  }

  /** Names strictly ascend as text; in particular none repeats. */
  predicate Ascend(keys: seq<string>) {
    forall i, j :: 0 <= i < j < |keys| ==> TextLess(keys[i], keys[j])
  }

  function Names(fields: seq<(string, Value)>): (names: seq<string>)
    ensures |names| == |fields|
  {
    seq(|fields|, k requires 0 <= k < |fields| => fields[k].0)
  }

  // ---------- sorting puts fields in the one ascending order ----------

  /** No field comes before one with a smaller name. */
  predicate Settled(fields: seq<(string, Value)>) {
    forall i, j :: 0 <= i < j < |fields| ==> !TextLess(fields[j].0, fields[i].0)
  }

  lemma PrependSettles(f: (string, Value), fields: seq<(string, Value)>)
    requires Settled(fields) && forall x :: x in multiset(fields) ==> !TextLess(x.0, f.0)
    ensures Settled([f] + fields)
  {
    hide TextLess;
    var r := [f] + fields;
    forall i, j | 0 <= i < j < |r| ensures !TextLess(r[j].0, r[i].0) {
      assert r[j] == fields[j - 1] && r[j] in multiset(fields);
    }
  }

  lemma {:induction false} InsertSettles(f: (string, Value), fields: seq<(string, Value)>)
    requires Settled(fields)
    ensures Settled(InsertField(f, fields))
  {
    hide TextLess;
    if fields == [] {
    } else if TextLess(f.0, fields[0].0) {
      TextTotal(f.0, fields[0].0);
      forall x | x in multiset(fields) ensures !TextLess(x.0, f.0) {
        if TextLess(x.0, f.0) {
          TextTransitive(x.0, f.0, fields[0].0);
        }
      }
      PrependSettles(f, fields);
    } else {
      InsertSettles(f, fields[1..]);
      var rest := InsertField(f, fields[1..]);
      assert multiset(rest) == multiset(fields[1..]) + multiset{f};
      hide InsertField;
      PrependSettles(fields[0], rest);
    }
  }

  lemma {:induction false} SortSettles(fields: seq<(string, Value)>)
    ensures Settled(SortFields(fields))
  {
    if fields != [] {
      SortSettles(fields[1..]);
      InsertSettles(fields[0], SortFields(fields[1..]));
    }
  }

  lemma SameFirst(a: seq<(string, Value)>, b: seq<(string, Value)>)
    requires multiset(a) == multiset(b) && Settled(a) && Ascend(Names(b)) && a != [] && b != []
    ensures a[0] == b[0]
  {
    hide TextLess;
    assert a[0] in multiset(b) && b[0] in multiset(a);
    var k :| 0 <= k < |b| && b[k] == a[0];
    var j :| 0 <= j < |a| && a[j] == b[0];
    if k > 0 {
      assert TextLess(Names(b)[0], Names(b)[k]);
      TextTotal(a[0].0, a[0].0);
    }
  }

  lemma TailsAgree<T>(a: seq<T>, b: seq<T>)
    requires multiset(a) == multiset(b) && a != [] && b != [] && a[0] == b[0]
    ensures multiset(a[1..]) == multiset(b[1..])
  {
    assert a == [a[0]] + a[1..] && b == [b[0]] + b[1..];
    assert multiset(a[1..]) == multiset(a) - multiset{a[0]};
    assert multiset(b[1..]) == multiset(b) - multiset{b[0]};
  }

  lemma TailAscends(b: seq<(string, Value)>)
    requires Ascend(Names(b)) && b != []
    ensures Ascend(Names(b[1..]))
  {
    hide TextLess;
    assert Names(b[1..]) == Names(b)[1..];
  }

  lemma {:induction false} OneOrder(a: seq<(string, Value)>, b: seq<(string, Value)>)
    requires multiset(a) == multiset(b) && Settled(a) && Ascend(Names(b))
    ensures a == b
  {
    if a == [] {
      assert |multiset(b)| == 0;
    } else {
      assert a[0] in multiset(b);
      SameFirst(a, b);
      TailsAgree(a, b);
      TailAscends(b);
      assert Settled(a[1..]);
      hide *;
      OneOrder(a[1..], b[1..]);
      assert a == [a[0]] + a[1..] && b == [b[0]] + b[1..];
    }
  }

  /** Whatever order fields with different names are listed in, they are written in the same. */
  lemma SortsTo(fields: seq<(string, Value)>, sorted: seq<(string, Value)>)
    requires multiset(fields) == multiset(sorted) && Ascend(Names(sorted))
    ensures SortFields(fields) == sorted
  {
    SortSettles(fields);
    OneOrder(SortFields(fields), sorted);
  }

  lemma PrependDiffers(f: (string, Value), fields: seq<(string, Value)>)
    requires Distinct(Names(fields)) && forall x :: x in multiset(fields) ==> x.0 != f.0
    ensures Distinct(Names([f] + fields))
  {
    assert Names([f] + fields) == [f.0] + Names(fields);
    forall k | 0 <= k < |fields| ensures Names(fields)[k] != f.0 {
      assert fields[k] in multiset(fields);
    }
  }

  lemma FirstDiffers(fields: seq<(string, Value)>)
    requires Distinct(Names(fields)) && fields != []
    ensures Distinct(Names(fields[1..]))
    ensures forall x :: x in multiset(fields[1..]) ==> x.0 != fields[0].0
  {
    assert Names(fields[1..]) == Names(fields)[1..];
    forall x: (string, Value) | x in multiset(fields[1..]) ensures x.0 != fields[0].0 {
      var k :| 0 <= k < |fields[1..]| && fields[1..][k] == x;
      assert Names(fields)[k + 1] == x.0 && Names(fields)[0] == fields[0].0;
    }
  }

  lemma {:induction false} InsertDiffers(f: (string, Value), fields: seq<(string, Value)>)
    requires Distinct(Names(fields)) && forall x :: x in multiset(fields) ==> x.0 != f.0
    ensures Distinct(Names(InsertField(f, fields)))
  {
    hide TextLess, Names, Distinct;
    if fields == [] || TextLess(f.0, fields[0].0) {
      PrependDiffers(f, fields);
    } else {
      FirstDiffers(fields);
      assert fields == [fields[0]] + fields[1..];
      assert fields[0] in multiset(fields);
      InsertDiffers(f, fields[1..]);
      PrependDiffers(fields[0], InsertField(f, fields[1..]));
    }
  }

  lemma {:induction false} SortDiffers(fields: seq<(string, Value)>)
    requires Distinct(Names(fields))
    ensures Distinct(Names(SortFields(fields)))
  {
    if fields != [] {
      FirstDiffers(fields);
      hide Names, Distinct;
      SortDiffers(fields[1..]);
      InsertDiffers(fields[0], SortFields(fields[1..]));
    }
  }

  /** Fields with different names are written in ascending order. */
  lemma SortAscends(fields: seq<(string, Value)>)
    requires Distinct(Names(fields))
    ensures Ascend(Names(SortFields(fields)))
  {
    SortSettles(fields);
    SortDiffers(fields);
    hide SortFields, TextLess;
    var names := Names(SortFields(fields));
    forall i, j | 0 <= i < j < |names| ensures TextLess(names[i], names[j]) {
      TextTotal(names[i], names[j]);
    }
  }

  lemma SortTwo(a: (string, Value), b: (string, Value))
    requires Ascend([a.0, b.0])
    ensures SortKeys(Obj([b, a])) == Obj([SortField(a), SortField(b)])
  {
    hide TextLess, Ascend, SortFields;
    var each, sorted := [SortField(b), SortField(a)], [SortField(a), SortField(b)];
    assert SortEach([b, a]) == each;
    assert multiset(each) == multiset{SortField(a), SortField(b)} == multiset(sorted);
    assert Names(sorted) == [a.0, b.0];
    SortsTo(each, sorted);
  }

  lemma Reordered<T>(a: T, b: T, c: T, d: T, e: T)
    ensures multiset([a, b, e, c, d]) == multiset([a, b, c, d, e])
  {
    assert multiset([a, b, e, c, d]) == multiset{a, b, c, d, e} == multiset([a, b, c, d, e]);
  }

  lemma EachFive(a: (string, Value), b: (string, Value), c: (string, Value), d: (string, Value), e: (string, Value))
    ensures SortEach([a, b, c, d, e]) == [SortField(a), SortField(b), SortField(c), SortField(d), SortField(e)]
  {
    hide SortField;
  }

  lemma NamesFive(a: (string, Value), b: (string, Value), c: (string, Value), d: (string, Value), e: (string, Value))
    ensures Names([a, b, c, d, e]) == [a.0, b.0, c.0, d.0, e.0]
  {
  }

  lemma SortFive(a: (string, Value), b: (string, Value), c: (string, Value), d: (string, Value), e: (string, Value))
    requires Ascend([a.0, b.0, c.0, d.0, e.0])
    ensures SortKeys(Obj([a, b, e, c, d]))
         == Obj([SortField(a), SortField(b), SortField(c), SortField(d), SortField(e)])
  {
    var x, y, z, u, v := SortField(a), SortField(b), SortField(c), SortField(d), SortField(e);
    assert x.0 == a.0 && y.0 == b.0 && z.0 == c.0 && u.0 == d.0 && v.0 == e.0;
    hide TextLess, Ascend, SortFields, SortField, SortEach, Names;
    EachFive(a, b, e, c, d);
    NamesFive(x, y, z, u, v);
    Reordered(x, y, z, u, v);
    SortsTo([x, y, v, z, u], [x, y, z, u, v]);
  }
}
