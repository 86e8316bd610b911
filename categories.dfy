/** Shop categories: the required-field check, the display string, the
    unique-slug table and its listing ordered by name. */
module Categories {
  import opened Options

  datatype Category = Category(name: string, slug: string)

  /** Category.__str__: the category's name. */
  function Label(c: Category): string
  {
    c.name
  }

  datatype CategoryField = Name | Slug

  /** The fields full_clean reports as required but blank. */
  function MissingFields(c: Category): (r: set<CategoryField>)
    ensures Name in r <==> c.name == ""
    ensures Slug in r <==> c.slug == ""
  {
    (if c.name == "" then {Name} else {}) + (if c.slug == "" then {Slug} else {})
  }

  /** Lexicographic order on names, by character code. */
  predicate NameLe(a: string, b: string)
    decreases |a|
  {
    a == [] || (b != [] && (a[0] < b[0] || (a[0] == b[0] && NameLe(a[1..], b[1..]))))
  }

  lemma {:induction false} NameLeReflexive(a: string)
    ensures NameLe(a, a)
    decreases |a|
  {
    if a != [] {
      NameLeReflexive(a[1..]);
    }
  }

  lemma {:induction false} NameLeTotal(a: string, b: string)
    ensures NameLe(a, b) || NameLe(b, a)
    decreases |a|
  {
    if a != [] && b != [] && a[0] == b[0] {
      NameLeTotal(a[1..], b[1..]);
    }
  }

  lemma {:induction false} NameLeTransitive(a: string, b: string, c: string)
    requires NameLe(a, b) && NameLe(b, c)
    ensures NameLe(a, c)
    decreases |a|
  {
    if a != [] && a[0] == b[0] && b[0] == c[0] {
      NameLeTransitive(a[1..], b[1..], c[1..]);
    }
  }

  predicate SortedByName(s: seq<Category>) {
    forall i, j :: 0 <= i < j < |s| ==> NameLe(s[i].name, s[j].name)
  }

  /** Every category of s has a name no earlier than `name`. */
  predicate Bounded(name: string, s: seq<Category>) {
    forall j :: 0 <= j < |s| ==> NameLe(name, s[j].name)
  }

  /** A bound holds of any rearrangement of a bounded sequence. */
  lemma BoundedPermutation(name: string, a: seq<Category>, b: seq<Category>)
    requires multiset(a) == multiset(b) && Bounded(name, b)
    ensures Bounded(name, a)
  {
    forall j | 0 <= j < |a| ensures NameLe(name, a[j].name) {
      assert a[j] in multiset(b);
      var k :| 0 <= k < |b| && b[k] == a[j];
    }
  }

  /** Places c before the first category whose name it does not follow. */
  function InsertByName(c: Category, s: seq<Category>): (r: seq<Category>)
    requires SortedByName(s)
    ensures SortedByName(r)
    ensures multiset(r) == multiset(s) + multiset{c}
  {
    if s == [] then [c]
    else if NameLe(c.name, s[0].name) then
      assert Bounded(c.name, s) by {
        forall j | 0 < j < |s| ensures NameLe(c.name, s[j].name) {
          NameLeTransitive(c.name, s[0].name, s[j].name);
        }
      }
      [c] + s
    else
      var rest := InsertByName(c, s[1..]);
      assert Bounded(s[0].name, rest) by {
        NameLeTotal(c.name, s[0].name);
        assert Bounded(s[0].name, s[1..] + [c]);
        BoundedPermutation(s[0].name, rest, s[1..] + [c]);
      }
      assert s == [s[0]] + s[1..];
      [s[0]] + rest
  }

  /** The rows as the table lists them: ordered by name. */
  function OrderByName(rows: seq<Category>): (r: seq<Category>)
    ensures SortedByName(r)
    ensures multiset(r) == multiset(rows)
  {
    if rows == [] then []
    else
      assert rows == rows[..|rows| - 1] + [rows[|rows| - 1]];
      InsertByName(rows[|rows| - 1], OrderByName(rows[..|rows| - 1]))
  }

  /** The first category listed has a name no later than any row's. */
  lemma FirstIsLeast(rows: seq<Category>, c: Category)
    requires c in rows
    ensures |OrderByName(rows)| == |rows|
    ensures NameLe(OrderByName(rows)[0].name, c.name)
  {
    var r := OrderByName(rows);
    assert |r| == |multiset(r)| == |multiset(rows)| == |rows|;
    assert c in multiset(rows);
    var j :| 0 <= j < |r| && r[j] == c;
    if j == 0 {
      NameLeReflexive(c.name);
    }
  }

  /** The outcome of saving a category. */
  datatype SaveResult = Saved | IntegrityError

  /** True when some row already uses the slug. */
  predicate SlugTaken(rows: seq<Category>, slug: string) {
    exists i :: 0 <= i < |rows| && rows[i].slug == slug
  }

  /** The category table: rows in insertion order, with unique slugs. */
  class CategoryTable {
    var rows: seq<Category>

    ghost predicate Valid()
      reads this
    {
      forall i, j :: 0 <= i < j < |rows| ==> rows[i].slug != rows[j].slug
    }

    constructor ()
      ensures Valid() && rows == []
    {
      rows := [];
    }

    /** Category.save / objects.create: inserts the row unless its slug is
        already used, which the unique index refuses. Blank fields are not
        checked here; full_clean checks them. */
    method Save(c: Category) returns (result: SaveResult)
      requires Valid()
      modifies this
      ensures Valid()
      ensures result == IntegrityError <==> SlugTaken(old(rows), c.slug)
      ensures rows == if result == Saved then old(rows) + [c] else old(rows)
    {
      if SlugTaken(rows, c.slug) {
        result := IntegrityError;
      } else {
        rows := rows + [c];
        result := Saved;
      }
    }

    /** Category.objects.all(): the rows ordered by name. */
    function Listing(): (r: seq<Category>)
      reads this
      ensures SortedByName(r) && multiset(r) == multiset(rows)
    {
      OrderByName(rows)
    }

    /** Category.objects.first(): the first row of the listing, if any. */
    method First() returns (first: Option<Category>)
      ensures first.None? <==> rows == []
      ensures first.Some? ==> first.value in rows
      ensures first.Some? ==> forall i :: 0 <= i < |rows| ==> NameLe(first.value.name, rows[i].name)
    {
      if rows == [] {
        return None;
      }
      var listing := Listing();
      forall i | 0 <= i < |rows| ensures NameLe(listing[0].name, rows[i].name) {
        FirstIsLeast(rows, rows[i]);
      }
      assert listing[0] in multiset(rows);
      first := Some(listing[0]);
    }
  }

  /** The ordering test: categories "b" then "a" are saved; "a" is listed first. */
  method OrderingScenario() returns (first: Option<Category>)
    ensures first == Some(Category("a", "a"))
    ensures Label(first.value) == "a"
  {
    var table := new CategoryTable();
    var r1 := table.Save(Category("b", "b"));
    assert table.rows == [Category("b", "b")];
    var r2 := table.Save(Category("a", "a"));
    assert r2 == Saved by {
      assert !SlugTaken([Category("b", "b")], "a") by {
        assert "b" != "a";
      }
    }
    assert table.rows == [Category("b", "b"), Category("a", "a")];
    first := table.First();
    assert NameLe(first.value.name, table.rows[1].name);
    assert !NameLe("b", "a");
    assert first.value == Category("b", "b") || first.value == Category("a", "a");
  }

  /** The uniqueness test: a second category with a used slug is refused and
      the table keeps one row. */
  method DuplicateSlugScenario() returns (second: SaveResult, rows: seq<Category>)
    ensures second == IntegrityError && rows == [Category("name", "slug")]
  {
    var table := new CategoryTable();
    var first := table.Save(Category("name", "slug"));
    assert table.rows[0].slug == "slug";
    second := table.Save(Category("name2", "slug"));
    rows := table.rows;
  }
}
