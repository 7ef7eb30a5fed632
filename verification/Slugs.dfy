/** Stable names of the catalogue's categories: the base, or the base with the smallest free suffix. */
module Slugs {
  import opened Numerals
  import opened Sequences

  /** The `k`-th name tried for a base. */
  function Candidate(base: string, k: nat): string {
    if k <= 1 then base else base + "-" + Digits(k)
  }

  /** The first candidate nobody holds. */
  predicate IsFirstFree(base: string, taken: set<string>, slug: string, k: nat) {
    && k >= 1 && slug == Candidate(base, k) && slug !in taken
    && forall j :: 1 <= j < k ==> Candidate(base, j) in taken
  }

  lemma CandidatesDiffer(base: string, j: nat, k: nat)
    requires 1 <= j < k
    ensures Candidate(base, j) != Candidate(base, k)
  {
    if j > 1 {
      ValueOfDigits(j);
      ValueOfDigits(k);
      assert (base + "-" + Digits(j))[|base| + 1..] == Digits(j);
      assert (base + "-" + Digits(k))[|base| + 1..] == Digits(k);
    } else {
      DigitsAreDigits(k);
      assert |Candidate(base, k)| > |base|;
    }
  }

  lemma FirstFreeIsUnique(base: string, taken: set<string>, a: string, j: nat, b: string, k: nat)
    requires IsFirstFree(base, taken, a, j) && IsFirstFree(base, taken, b, k)
    ensures a == b && j == k
  {
  }

  /** The candidates tried so far. */
  predicate Tried(base: string, tried: set<string>, k: nat) {
    && |tried| == k - 1
    && (forall j :: 1 <= j < k ==> Candidate(base, j) in tried)
    && (forall s :: s in tried ==> exists j :: 1 <= j < k && s == Candidate(base, j))
  }

  lemma TryingIsNew(base: string, tried: set<string>, k: nat)
    requires k >= 1 && Tried(base, tried, k)
    ensures Candidate(base, k) !in tried && Tried(base, tried + {Candidate(base, k)}, k + 1)
  {
    forall j | 1 <= j < k ensures Candidate(base, j) != Candidate(base, k) {
      CandidatesDiffer(base, j, k);
    }
    var more := tried + {Candidate(base, k)};
    forall s | s in more ensures exists j :: 1 <= j < k + 1 && s == Candidate(base, j) {
      if s in tried {
        var j :| 1 <= j < k && s == Candidate(base, j);
        assert 1 <= j < k + 1;
      }
    }
  }

  lemma RoomShrinks(taken: set<string>, tried: set<string>, slug: string)
    requires slug in taken && slug !in tried
    ensures |taken - (tried + {slug})| < |taken - tried|
  {
    assert slug in taken - tried;
    SmallerSet(taken - (tried + {slug}), taken - tried);
  }

  /** Terminates after at most as many retries as there are taken slugs. */
  method UniqueSlug(base: string, taken: set<string>) returns (slug: string, k: nat)
    ensures IsFirstFree(base, taken, slug, k)
    ensures k - 1 <= |taken|
  {
    slug, k := base, 1;
    var suffix := 2;
    ghost var tried: set<string> := {};
    while slug in taken
      invariant suffix == k + 1 && k >= 1 && slug == Candidate(base, k)
      invariant Tried(base, tried, k) && tried <= taken
      decreases |taken - tried|
    {
      TryingIsNew(base, tried, k);
      RoomShrinks(taken, tried, slug);
      tried := tried + {slug};
      slug := base + "-" + Digits(suffix);
      k := suffix;
      suffix := suffix + 1;
    }
    SubsetSize(tried, taken);
  }

  lemma SmallerSet<T>(small: set<T>, large: set<T>)
    requires small < large
    ensures |small| < |large|
  {
    SubsetSize(small, large);
    var extra :| extra in large && extra !in small;
    assert extra in large - small;
    assert large == small + (large - small);
  }

  // ---------------------------------------------------------------- backfill

  /** A category row of the migration: its organisation and the base made from its name. */
  datatype Row = Row(org: nat, base: string)

  /** The slugs already given to an organisation. */
  function Given(rows: seq<Row>, slugs: seq<string>, org: nat): set<string>
    requires |slugs| <= |rows|
  {
    set i | 0 <= i < |slugs| && rows[i].org == org :: slugs[i]
  }

  ghost predicate FreeAt(rows: seq<Row>, slugs: seq<string>, i: nat)
    requires i < |slugs| <= |rows|
  {
    exists k :: IsFirstFree(rows[i].base, Given(rows, slugs[..i], rows[i].org), slugs[i], k)
  }

  /** The sets kept per organisation are the slugs given so far. */
  ghost predicate Tracks(seenByOrg: map<nat, set<string>>, rows: seq<Row>, slugs: seq<string>)
    requires |slugs| <= |rows|
  {
    forall org: nat :: SeenBy(seenByOrg, org) == Given(rows, slugs, org)
  }

  function SeenBy(seenByOrg: map<nat, set<string>>, org: nat): set<string> {
    if org in seenByOrg then seenByOrg[org] else {}
  }

  ghost predicate AllFree(rows: seq<Row>, slugs: seq<string>)
    requires |slugs| <= |rows|
  {
    forall i :: 0 <= i < |slugs| ==> FreeAt(rows, slugs, i)
  }

  /** Every row gets the smallest suffix not given before it in its own organisation. */
  method Backfill(rows: seq<Row>) returns (slugs: seq<string>)
    ensures |slugs| == |rows|
    ensures forall i :: 0 <= i < |rows| ==> FreeAt(rows, slugs, i)
    ensures forall i, j :: 0 <= i < j < |rows| && rows[i].org == rows[j].org ==> slugs[i] != slugs[j]
  {
    slugs := [];
    var seenByOrg: map<nat, set<string>> := map[];
    for i := 0 to |rows|
      invariant |slugs| == i
      invariant Tracks(seenByOrg, rows, slugs)
      invariant AllFree(rows, slugs)
    {
      var org := rows[i].org;
      var seen := SeenBy(seenByOrg, org);
      var slug, k := UniqueSlug(rows[i].base, seen);
      GivenGrows(rows, slugs, slug);
      FreeStays(rows, slugs, slug, k);
      TracksGrows(seenByOrg, rows, slugs, slug);
      slugs := slugs + [slug];
      seenByOrg := seenByOrg[org := seen + {slug}];
    }
    FreeMeansDistinct(rows, slugs);
  }

  lemma TracksGrows(seenByOrg: map<nat, set<string>>, rows: seq<Row>, slugs: seq<string>, slug: string)
    requires |slugs| < |rows| && Tracks(seenByOrg, rows, slugs)
    ensures var org := rows[|slugs|].org;
            Tracks(seenByOrg[org := SeenBy(seenByOrg, org) + {slug}], rows, slugs + [slug])
  {
    GivenGrows(rows, slugs, slug);
  }

  lemma GivenGrows(rows: seq<Row>, slugs: seq<string>, slug: string)
    requires |slugs| < |rows|
    ensures forall org :: Given(rows, slugs + [slug], org)
                          == Given(rows, slugs, org) + (if org == rows[|slugs|].org then {slug} else {})
  {
    var more := slugs + [slug];
    forall org
      ensures Given(rows, more, org) == Given(rows, slugs, org) + (if org == rows[|slugs|].org then {slug} else {})
    {
      forall s | s in Given(rows, slugs, org) ensures s in Given(rows, more, org) {
        var i :| 0 <= i < |slugs| && rows[i].org == org && slugs[i] == s;
        assert more[i] == s;
      }
      if org == rows[|slugs|].org {
        assert more[|slugs|] == slug;
      }
    }
  }

  lemma FreeStays(rows: seq<Row>, slugs: seq<string>, slug: string, k: nat)
    requires |slugs| < |rows|
    requires AllFree(rows, slugs)
    requires IsFirstFree(rows[|slugs|].base, Given(rows, slugs, rows[|slugs|].org), slug, k)
    ensures AllFree(rows, slugs + [slug])
  {
    var more := slugs + [slug];
    forall j | 0 <= j <= |slugs| ensures FreeAt(rows, more, j) {
      assert more[..j] == slugs[..j];
      if j < |slugs| {
        assert FreeAt(rows, slugs, j);
        var n :| IsFirstFree(rows[j].base, Given(rows, slugs[..j], rows[j].org), slugs[j], n);
        assert IsFirstFree(rows[j].base, Given(rows, more[..j], rows[j].org), more[j], n);
      } else {
        assert slugs[..j] == slugs;
        assert IsFirstFree(rows[j].base, Given(rows, more[..j], rows[j].org), more[j], k);
      }
    }
  }

  /** What each step guarantees about the rows before it makes the whole table unique. */
  lemma FreeMeansDistinct(rows: seq<Row>, slugs: seq<string>)
    requires |slugs| == |rows|
    requires forall i :: 0 <= i < |rows| ==> FreeAt(rows, slugs, i)
    ensures forall i, j :: 0 <= i < j < |rows| && rows[i].org == rows[j].org ==> slugs[i] != slugs[j]
  {
    forall i, j | 0 <= i < j < |rows| && rows[i].org == rows[j].org ensures slugs[i] != slugs[j] {
      assert FreeAt(rows, slugs, j);
      assert slugs[..j][i] == slugs[i];
      assert slugs[i] in Given(rows, slugs[..j], rows[j].org);
    }
  }

  /** The backfill is determined by the table: two runs of the migration give the same slugs. */
  lemma {:induction false} BackfillIsDetermined(rows: seq<Row>, a: seq<string>, b: seq<string>)
    requires |a| == |b| <= |rows| && AllFree(rows, a) && AllFree(rows, b)
    ensures a == b
    decreases |a|
  {
    if a != [] {
      var last := |a| - 1;
      PrefixesAreFree(rows, a);
      PrefixesAreFree(rows, b);
      BackfillIsDetermined(rows, a[..last], b[..last]);
      assert FreeAt(rows, a, last) && FreeAt(rows, b, last);
      var taken := Given(rows, a[..last], rows[last].org);
      var j :| IsFirstFree(rows[last].base, taken, a[last], j);
      var k :| IsFirstFree(rows[last].base, taken, b[last], k);
      FirstFreeIsUnique(rows[last].base, taken, a[last], j, b[last], k);
      assert a == a[..last] + [a[last]] && b == b[..last] + [b[last]];
    }
  }

  lemma PrefixesAreFree(rows: seq<Row>, slugs: seq<string>)
    requires slugs != [] && |slugs| <= |rows| && AllFree(rows, slugs)
    ensures AllFree(rows, slugs[..|slugs| - 1])
  {
    var init := slugs[..|slugs| - 1];
    forall i | 0 <= i < |init| ensures FreeAt(rows, init, i) {
      assert FreeAt(rows, slugs, i);
      assert init[..i] == slugs[..i];
      var k :| IsFirstFree(rows[i].base, Given(rows, slugs[..i], rows[i].org), slugs[i], k);
      assert IsFirstFree(rows[i].base, Given(rows, init[..i], rows[i].org), init[i], k);
    }
  }

  // ---------------------------------------------------------------- living catalogue

  function Held(slugs: seq<string>): set<string> {
    set s | s in slugs
  }

  /** The first free slug of the base beside those held. */
  ghost predicate IsFresh(base: string, held: seq<string>, slug: string) {
    exists k :: IsFirstFree(base, Held(held), slug, k)
  }

  /** The categories of one organisation: a name and a slug each, in the same order. */
  class Catalogue {
    var names: seq<string>
    var slugs: seq<string>

    /** No two categories share a name, nor a slug. */
    ghost predicate Valid()
      reads this
    {
      |names| == |slugs| && Distinct(names) && Distinct(slugs)
    }

    constructor ()
      ensures Valid() && names == [] && slugs == []
    {
      names, slugs := [], [];
    }

    /** A repeated name is refused; a new one gets the first free slug of its base. */
    method Create(name: string, base: string) returns (ok: bool)
      requires Valid()
      modifies this
      ensures Valid()
      ensures ok <==> name !in old(names)
      ensures !ok ==> names == old(names) && slugs == old(slugs)
      ensures ok ==> names == old(names) + [name] && |slugs| == |old(slugs)| + 1 && slugs[..|slugs| - 1] == old(slugs)
      ensures ok ==> IsFresh(base, old(slugs), slugs[|slugs| - 1])
    {
      if name in names {
        return false;
      }
      var slug, k := UniqueSlug(base, Held(slugs));
      slugs := slugs + [slug];
      names := names + [name];
      return true;
    }

    /** Renaming to a name another category has is refused; the slug never changes. */
    method Rename(i: nat, name: string) returns (ok: bool)
      requires Valid() && i < |names|
      modifies this`names
      ensures Valid()
      ensures ok <==> forall j :: 0 <= j < |old(names)| && old(names)[j] == name ==> j == i
      ensures names == if ok then old(names)[i := name] else old(names)
    {
      if name in names && name != names[i] {
        ghost var j := FirstIndex(names, name);
        assert j != i;
        return false;
      }
      names := names[i := name];
      return true;
    }

    method Delete(i: nat)
      requires Valid() && i < |names|
      modifies this
      ensures Valid()
      ensures names == old(names)[..i] + old(names)[i + 1..] && slugs == old(slugs)[..i] + old(slugs)[i + 1..]
      ensures old(slugs)[i] !in slugs
    {
      names := names[..i] + names[i + 1..];
      slugs := slugs[..i] + slugs[i + 1..];
    }
  }
}
