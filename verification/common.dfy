/** Value types and string helpers shared by every command of the bot: the
    option type, JavaScript's `split`/`trim`/`join`/`includes`, the
    insertion-ordered `Set` built from an array, and the "member holds one of
    these roles" permission test that every guarded command repeats. */
module Common {

  datatype Option<T> = None | Some(value: T)

  /** Discord snowflakes, Roblox group ids and rank ids are handled as strings. */
  type Id = string

  // ---------------------------------------------------------------------------
  // Permission test: `ids.some(roleId => member.roles.cache.has(roleId))`
  // ---------------------------------------------------------------------------

  /** True iff some role id of the configured list is held by the member. */
  function HasAnyRole(ids: seq<Id>, held: set<Id>): (r: bool)
    ensures r <==> exists i :: 0 <= i < |ids| && ids[i] in held
  {
    if ids == [] then false
    else if ids[0] in held then true
    else HasAnyRole(ids[1..], held)
  }

  // ---------------------------------------------------------------------------
  // Sequences without duplicates, and the insertion-ordered Set of JavaScript
  // ---------------------------------------------------------------------------

  ghost predicate NoDups<T>(s: seq<T>) {
    forall i, j :: 0 <= i < j < |s| ==> s[i] != s[j]
  }

  function Elems<T>(s: seq<T>): set<T> {
    set x | x in s
  }

  /** Inserts the elements of `xs`, in order, into the insertion-ordered set
      `acc`: an element already present keeps its first position. This is
      what `new Set([...acc, ...xs])` followed by spreading into an array yields. */
  function AddAll<T(==)>(acc: seq<T>, xs: seq<T>): (r: seq<T>)
    ensures NoDups(acc) ==> NoDups(r)
    ensures Elems(r) == Elems(acc) + Elems(xs)
    ensures |acc| <= |r| && r[..|acc|] == acc
    decreases xs
  {
    if xs == [] then acc
    else AddAll(if xs[0] in acc then acc else acc + [xs[0]], xs[1..])
  }

  /** `[...new Set(xs)]`: the distinct elements of `xs` in order of first occurrence. */
  function Dedup<T(==)>(xs: seq<T>): seq<T> {
    AddAll([], xs)
  }

  /** Adding a concatenation equals adding its two halves in turn. */
  lemma {:induction false} AddAllConcat<T>(acc: seq<T>, a: seq<T>, b: seq<T>)
    ensures AddAll(acc, a + b) == AddAll(AddAll(acc, a), b)
    decreases a
  {
    if a == [] {
      assert a + b == b;
    } else {
      assert (a + b)[0] == a[0];
      assert (a + b)[1..] == a[1..] + b;
      AddAllConcat(if a[0] in acc then acc else acc + [a[0]], a[1..], b);
    }
  }

  /** Adding the elements of a prefix one more at a time: each step appends the
      element unless it is present. */
  lemma AddAllStep<T>(acc: seq<T>, xs: seq<T>, j: nat)
    requires j < |xs|
    ensures AddAll(acc, xs[..j + 1]) == var r := AddAll(acc, xs[..j]); if xs[j] in r then r else r + [xs[j]]
  {
    assert xs[..j + 1] == xs[..j] + [xs[j]];
    AddAllConcat(acc, xs[..j], [xs[j]]);
    var r := AddAll(acc, xs[..j]);
    assert AddAll(if xs[j] in r then r else r + [xs[j]], []) == if xs[j] in r then r else r + [xs[j]];
  }

  /** Adding elements that are all already present changes nothing. */
  lemma {:induction false} AddAllPresent<T>(acc: seq<T>, xs: seq<T>)
    requires forall x :: x in xs ==> x in acc
    ensures AddAll(acc, xs) == acc
    decreases xs
  {
    if xs != [] {
      assert xs[0] in xs;
      AddAllPresent(acc, xs[1..]);
    }
  }

  /** A duplicate-free sequence is its own Set. */
  lemma {:induction false} DedupOfDistinct<T>(xs: seq<T>)
    requires NoDups(xs)
    ensures Dedup(xs) == xs
    decreases |xs|
  {
    if xs != [] {
      var init := xs[..|xs| - 1];
      var last := xs[|xs| - 1];
      assert xs == init + [last];
      DedupOfDistinct(init);
      AddAllConcat([], init, [last]);
      assert last !in init by {
        forall k | 0 <= k < |init| ensures init[k] != last {
          assert init[k] == xs[k];
        }
      }
      assert [last][1..] == [];
    }
  }

  /** The union `[...new Set([...old, ...extra])]` of a duplicate-free list keeps
      the old list as a prefix and appends only the new, distinct elements. */
  lemma UnionKeepsOldOrder<T>(old_: seq<T>, extra: seq<T>)
    requires NoDups(old_)
    ensures Dedup(old_ + extra) == AddAll(old_, extra)
    ensures Dedup(old_ + extra)[..|old_|] == old_
    ensures NoDups(Dedup(old_ + extra))
    ensures Elems(Dedup(old_ + extra)) == Elems(old_) + Elems(extra)
  {
    AddAllConcat([], old_, extra);
    DedupOfDistinct(old_);
  }

  // ---------------------------------------------------------------------------
  // String.prototype.split with a one-character separator, and Array.join
  // ---------------------------------------------------------------------------

  /** Array.prototype.join: pieces separated by `sep`; the empty list gives "". */
  function Join(parts: seq<string>, sep: char): string {
    if parts == [] then ""
    else if |parts| == 1 then parts[0]
    else parts[0] + [sep] + Join(parts[1..], sep)
  }

  /** Index of the first occurrence of `c` in `s`. */
  function IndexOf(s: string, c: char): (k: nat)
    requires c in s
    ensures k < |s| && s[k] == c && c !in s[..k]
  {
    if s[0] == c then 0
    else
      assert c in s[1..] by {
        var j :| 0 <= j < |s| && s[j] == c;
        assert s[1..][j - 1] == c;
      }
      var k := 1 + IndexOf(s[1..], c);
      assert s[..k] == [s[0]] + s[1..][..k - 1];
      k
  }

  /** `s.split(sep)`: the maximal pieces between separators; never empty, and
      joining the pieces with the separator gives `s` back. */
  function Split(s: string, sep: char): (parts: seq<string>)
    ensures |parts| >= 1
    ensures forall i :: 0 <= i < |parts| ==> sep !in parts[i]
    ensures Join(parts, sep) == s
    decreases |s|
  {
    if sep !in s then [s]
    else
      var k := IndexOf(s, sep);
      var rest := Split(s[k + 1..], sep);
      assert s == s[..k] + [sep] + s[k + 1..];
      [s[..k]] + rest
  }

  /** The first separator of `a + [sep] + b` is the one after `a` when `a` holds none. */
  lemma IndexOfAfterPrefix(a: string, sep: char, b: string)
    requires sep !in a
    ensures sep in a + [sep] + b && IndexOf(a + [sep] + b, sep) == |a|
  {
    var s := a + [sep] + b;
    assert s[|a|] == sep;
  }

  /** Splitting `a + [sep] + b` yields `a` followed by the pieces of `b`. */
  lemma SplitCons(a: string, sep: char, b: string)
    requires sep !in a
    ensures Split(a + [sep] + b, sep) == [a] + Split(b, sep)
  {
    var s := a + [sep] + b;
    IndexOfAfterPrefix(a, sep, b);
    assert s[..|a|] == a;
    assert s[|a| + 1..] == b;
  }

  /** Splitting a join of separator-free pieces gives the pieces back. */
  lemma {:induction false} SplitJoin(parts: seq<string>, sep: char)
    requires |parts| >= 1
    requires forall i :: 0 <= i < |parts| ==> sep !in parts[i]
    ensures Split(Join(parts, sep), sep) == parts
    decreases |parts|
  {
    if |parts| > 1 {
      SplitJoin(parts[1..], sep);
      SplitCons(parts[0], sep, Join(parts[1..], sep));
      assert parts == [parts[0]] + parts[1..];
    }
  }

  // ---------------------------------------------------------------------------
  // String.prototype.trim
  // ---------------------------------------------------------------------------

  /** The characters ECMAScript's `trim` removes: WhiteSpace (tab, vertical tab,
      form feed, space, no-break space, byte order mark and the Unicode space
      separators) and LineTerminator (line feed, carriage return, line and
      paragraph separators). */
  predicate IsSpace(c: char) {
    var n := c as int;
    (0x09 <= n <= 0x0D) || n == 0x20 || n == 0xA0 || n == 0x1680 ||
    (0x2000 <= n <= 0x200A) || n == 0x2028 || n == 0x2029 || n == 0x202F ||
    n == 0x205F || n == 0x3000 || n == 0xFEFF
  }

  ghost predicate AllSpace(s: string) {
    forall i :: 0 <= i < |s| ==> IsSpace(s[i])
  }

  /** Number of white-space characters at the start of `s`. */
  function LeadingSpaces(s: string): (k: nat)
    ensures k <= |s| && AllSpace(s[..k])
    ensures k < |s| ==> !IsSpace(s[k])
  {
    if s == [] || !IsSpace(s[0]) then 0
    else
      var k := LeadingSpaces(s[1..]);
      assert s[..k + 1] == [s[0]] + s[1..][..k];
      k + 1
  }

  /** Length of `s` without its trailing white space. */
  function TrailingStart(s: string): (j: nat)
    ensures j <= |s| && AllSpace(s[j..])
    ensures j > 0 ==> !IsSpace(s[j - 1])
  {
    if s == [] || !IsSpace(s[|s| - 1]) then |s|
    else
      var j := TrailingStart(s[..|s| - 1]);
      assert s[j..] == s[..|s| - 1][j..] + [s[|s| - 1]];
      j
  }

  /** `s.trim()`: `s` without its leading and trailing white space. The result is
      a contiguous slice of `s` between all-space margins, and starts and ends
      with a non-space character when it is not empty. */
  function Trim(s: string): (r: string)
    ensures exists i, j :: 0 <= i <= j <= |s| && r == s[i..j] && AllSpace(s[..i]) && AllSpace(s[j..])
    ensures r != [] ==> !IsSpace(r[0]) && !IsSpace(r[|r| - 1])
  {
    var i := LeadingSpaces(s);
    var k := TrailingStart(s[i..]);
    SliceOfSlice(s, i, k);
    s[i..i + k]
  }

  /** Slicing a slice again is slicing the whole. */
  lemma SliceOfSlice(s: string, i: nat, k: nat)
    requires i + k <= |s|
    ensures s[i..][k..] == s[i + k..] && s[i..][..k] == s[i..i + k]
  {
  }

  /** `input.split(',').map(x => x.trim())`, the list parser used by the
      binding and points commands. */
  function SplitTrim(input: string): (pieces: seq<string>)
    ensures |pieces| == |Split(input, ',')| >= 1
    ensures forall i :: 0 <= i < |pieces| ==> pieces[i] == Trim(Split(input, ',')[i])
  {
    var parts := Split(input, ',');
    seq(|parts|, i requires 0 <= i < |parts| => Trim(parts[i]))
  }

  /** A trimmed piece of a comma-separated list contains no comma and carries
      no white space at either end. */
  lemma SplitTrimPieces(input: string, i: nat)
    requires i < |SplitTrim(input)|
    ensures ',' !in SplitTrim(input)[i]
    ensures SplitTrim(input)[i] != [] ==> !IsSpace(SplitTrim(input)[i][0])
  {
    var p := Split(input, ',')[i];
    var t := SplitTrim(input)[i];
    assert t == Trim(p);
    var a, b :| 0 <= a <= b <= |p| && t == p[a..b] && AllSpace(p[..a]) && AllSpace(p[b..]);
  }

  // ---------------------------------------------------------------------------
  // String.prototype.includes
  // ---------------------------------------------------------------------------

  /** `text` holds `p` at position `i`. */
  ghost predicate OccursAt(p: string, text: string, i: int) {
    0 <= i && i + |p| <= |text| && text[i..i + |p|] == p
  }

  /** `text.includes(p)`: an exact, case-sensitive substring test. */
  function Includes(text: string, p: string): (r: bool)
    ensures r <==> exists i :: OccursAt(p, text, i)
    decreases |text|
  {
    if |p| > |text| then false
    else if text[..|p|] == p then (assert OccursAt(p, text, 0); true)
    else
      var r := Includes(text[1..], p);
      if r then
        assert exists i :: OccursAt(p, text, i) by {
          var i :| OccursAt(p, text[1..], i);
          assert text[1..][i..i + |p|] == text[i + 1..i + 1 + |p|];
          assert OccursAt(p, text, i + 1);
        }
        true
      else
        assert !OccursAt(p, text, 0);
        assert forall i :: OccursAt(p, text, i) && i >= 1 ==> OccursAt(p, text[1..], i - 1) by {
          forall i | OccursAt(p, text, i) && i >= 1 ensures OccursAt(p, text[1..], i - 1) {
            assert text[1..][i - 1..i - 1 + |p|] == text[i..i + |p|];
          }
        }
        false
  }
}
