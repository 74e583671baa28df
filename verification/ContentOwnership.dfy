/**
  The table that says who created which content of an organization, and its renaming by subtree.

  A row is found by SQL `LIKE`: ASCII letters match in either case, `_` matches any character, `%`
  any text, and there is no escape character. In what order a query returns rows is left open.
 */
module ContentOwnership {
  import opened Collections
  import opened Text
  import opened Wrappers

  datatype Scope = Scope(organization: string, resourceType: string)

  datatype RowKey = RowKey(scope: Scope, resource: string)

  datatype Record = Record(creator: int, createdAt: string)

  type Rows = map<RowKey, Record>

  // ---------------------------------------------------------------- LIKE

  function Fold(c: char): char {
    if 'A' <= c <= 'Z' then c - 'A' + 'a' else c
  }

  predicate Like(pattern: string, text: string)
    decreases |pattern| + |text|
  {
    if pattern == "" then text == ""
    else if pattern[0] == '%' then Like(pattern[1..], text) || (text != "" && Like(pattern, text[1..]))
    else text != "" && (pattern[0] == '_' || Fold(pattern[0]) == Fold(text[0])) && Like(pattern[1..], text[1..])
  }

  predicate Plain(pattern: string) {
    '%' !in pattern && '_' !in pattern
  }

  predicate SameUpToCase(a: string, b: string) {
    |a| == |b| && forall i :: 0 <= i < |a| ==> Fold(a[i]) == Fold(b[i])
  }

  lemma {:induction false} AnythingIsLikePercent(text: string)
    ensures Like("%", text)
    decreases |text|
  {
    assert "%"[1..] == "";
    if text == "" {
    } else {
      AnythingIsLikePercent(text[1..]);
    }
  }

  /** Whatever wildcards `prefix` contains, `prefix%` finds every text that starts with it. */
  lemma {:induction false} PrefixIsAlwaysFound(prefix: string, rest: string)
    ensures Like(prefix + "%", prefix + rest)
    decreases |prefix|
  {
    var pattern, text := prefix + "%", prefix + rest;
    if prefix == "" {
      assert pattern == "%";
      AnythingIsLikePercent(text);
    } else {
      PrefixIsAlwaysFound(prefix[1..], rest);
      assert pattern[1..] == prefix[1..] + "%" && text[1..] == prefix[1..] + rest;
    }
  }

  /** Without wildcards, `prefix%` finds exactly the texts that start with `prefix` up to case. */
  lemma {:induction false} PlainPrefixFinds(prefix: string, text: string)
    requires Plain(prefix)
    ensures Like(prefix + "%", text) <==> |text| >= |prefix| && SameUpToCase(prefix, text[..|prefix|])
    decreases |prefix|
  {
    var pattern := prefix + "%";
    if prefix == "" {
      assert pattern == "%";
      AnythingIsLikePercent(text);
    } else if text != "" {
      PlainPrefixFinds(prefix[1..], text[1..]);
      assert pattern[1..] == prefix[1..] + "%";
      assert pattern[0] == prefix[0] && prefix[0] in prefix;
      if |text| >= |prefix| {
        assert text[1..][..|prefix| - 1] == text[..|prefix|][1..];
        assert SameUpToCase(prefix, text[..|prefix|]) <==>
          Fold(prefix[0]) == Fold(text[0]) && SameUpToCase(prefix[1..], text[..|prefix|][1..]) by {
          SameFirstAndRest(prefix, text[..|prefix|]);
        }
      }
    }
  }

  lemma SameFirstAndRest(a: string, b: string)
    requires |a| == |b| > 0
    ensures SameUpToCase(a, b) <==> Fold(a[0]) == Fold(b[0]) && SameUpToCase(a[1..], b[1..])
  {
  }

  // ---------------------------------------------------------------- which rows belong to a key

  function StripSlashes(s: string): string {
    if s != "" && s[|s| - 1] == '/' then StripSlashes(s[..|s| - 1]) else s
  }

  predicate EndsInSlash(s: string) {
    s != "" && s[|s| - 1] == '/'
  }

  /** What the WHERE clause selects. */
  predicate Selected(oldKey: string, key: string) {
    key == oldKey || Like(StripSlashes(oldKey) + "/%", key)
  }

  predicate Starts(start: string, key: string) {
    |key| >= |start| && key[..|start|] == start
  }

  /** What it is meant to select: the path, written with or without slashes at its end, and all below it. */
  predicate InSubtree(oldKey: string, key: string) {
    var path := StripSlashes(oldKey);
    key == path || (|key| > |path| && Starts(path, key) && key[|path|] == '/')
  }

  /** A path below another spelling of `oldKey`. */
  predicate BelowOtherSpelling(oldKey: string, key: string) {
    |key| > |oldKey| && key[..|oldKey|] != oldKey && SameUpToCase(oldKey, key[..|oldKey|]) && key[|oldKey|] == '/'
  }

  /** No path below a key is ever missed, whatever characters the key has. */
  lemma SubtreeIsSelected(oldKey: string, key: string)
    requires !EndsInSlash(oldKey) && InSubtree(oldKey, key)
    ensures Selected(oldKey, key)
  {
    if key != oldKey {
      var rest := key[|oldKey| + 1..];
      assert key == oldKey + "/" + rest;
      assert oldKey + "/%" == (oldKey + "/") + "%";
      PrefixIsAlwaysFound(oldKey + "/", rest);
    }
  }

  /** For a key without wildcards the only strangers selected are paths below another spelling of it. */
  lemma StrangersAreOtherSpellings(oldKey: string, key: string)
    requires Plain(oldKey) && !EndsInSlash(oldKey)
    ensures Selected(oldKey, key) && !InSubtree(oldKey, key) <==> BelowOtherSpelling(oldKey, key)
  {
    hide Like, SameUpToCase;
    assert oldKey + "/%" == (oldKey + "/") + "%";
    assert Plain(oldKey + "/");
    PlainPrefixFinds(oldKey + "/", key);
    if |key| > |oldKey| {
      var start := key[..|oldKey| + 1];
      assert start[..|oldKey|] == key[..|oldKey|] && (oldKey + "/")[..|oldKey|] == oldKey;
      SameUpToLast(oldKey, '/', key[..|oldKey|], key[|oldKey|]);
      assert start == key[..|oldKey|] + [key[|oldKey|]];
      assert oldKey + "/" == oldKey + ['/'];
      assert Fold(key[|oldKey|]) == Fold('/') <==> key[|oldKey|] == '/';
    }
  }

  lemma SameUpToLast(a: string, x: char, b: string, y: char)
    requires |a| == |b|
    ensures SameUpToCase(a + [x], b + [y]) <==> SameUpToCase(a, b) && Fold(x) == Fold(y)
  {
    if SameUpToCase(a + [x], b + [y]) {
      assert (a + [x])[|a|] == x && (b + [y])[|a|] == y;
      forall i | 0 <= i < |a| ensures Fold(a[i]) == Fold(b[i]) {
        assert (a + [x])[i] == a[i] && (b + [y])[i] == b[i];
      }
    }
  }

  predicate IsWildcard(c: char) {
    c == '%' || c == '_'
  }

  /** A wildcard also matches another character in its place. */
  lemma {:induction false} WildcardMatchesOther(prefix: string, i: nat)
    requires i < |prefix| && IsWildcard(prefix[i])
    ensures Like(prefix + "%", prefix[i := 'x'])
    decreases |prefix|
  {
    var pattern, text, rest := prefix + "%", prefix[i := 'x'], prefix[1..];
    assert pattern[1..] == rest + "%" && pattern[0] == prefix[0];
    if i == 0 {
      assert text[1..] == rest + "";
      PrefixIsAlwaysFound(rest, "");
    } else {
      assert text[1..] == rest[i - 1 := 'x'];
      WildcardMatchesOther(rest, i - 1);
    }
  }

  lemma {:induction false} StripSlashesIsPrefix(s: string)
    ensures |StripSlashes(s)| <= |s| && StripSlashes(s) == s[..|StripSlashes(s)|]
    ensures forall i :: |StripSlashes(s)| <= i < |s| ==> s[i] == '/'
    ensures EndsInSlash(s) <==> |StripSlashes(s)| < |s|
  {
    if !EndsInSlash(s) {
      assert s == s[..|s|];
    } else {
      StripSlashesIsPrefix(s[..|s| - 1]);
    }
  }

  /** The path selected by a key whose wildcard at `i` stood for another character. */
  function Stranger(oldKey: string, i: nat): string
    requires i < |StripSlashes(oldKey)|
  {
    (StripSlashes(oldKey) + "/")[i := 'x']
  }

  /** Every key with a wildcard selects a path that does not lie below it. */
  lemma WildcardSelectsStranger(oldKey: string, i: nat)
    requires i < |oldKey| && IsWildcard(oldKey[i])
    ensures i < |StripSlashes(oldKey)|
    ensures Selected(oldKey, Stranger(oldKey, i)) && !InSubtree(oldKey, Stranger(oldKey, i))
  {
    StripSlashesIsPrefix(oldKey);
    var prefix := StripSlashes(oldKey) + "/";
    assert prefix[i] == oldKey[i];
    WildcardMatchesOther(prefix, i);
    assert StripSlashes(oldKey) + "/%" == prefix + "%";
    var key := Stranger(oldKey, i);
    assert key[i] != oldKey[i] && StripSlashes(oldKey)[i] == oldKey[i];
    assert key[..|key| - 1][i] == key[i];
  }

  function Slashes(s: string): nat {
    if s == "" then 0 else (if s[0] == '/' then 1 else 0) + Slashes(s[1..])
  }

  /** A text has at least the slashes of every pattern it matches. */
  lemma {:induction false} LikeKeepsSlashes(pattern: string, text: string)
    requires Like(pattern, text)
    ensures Slashes(pattern) <= Slashes(text)
    decreases |pattern| + |text|
  {
    if pattern == "" {
    } else if pattern[0] == '%' {
      if Like(pattern[1..], text) {
        LikeKeepsSlashes(pattern[1..], text);
      } else {
        LikeKeepsSlashes(pattern, text[1..]);
      }
    } else {
      LikeKeepsSlashes(pattern[1..], text[1..]);
    }
  }

  lemma {:induction false} SlashesOfConcat(a: string, b: string)
    ensures Slashes(a + b) == Slashes(a) + Slashes(b)
  {
    if a == "" {
      assert a + b == b;
    } else {
      assert (a + b)[1..] == a[1..] + b;
      SlashesOfConcat(a[1..], b);
    }
  }

  /** With slashes at the end of the key the row of the path itself is never selected. */
  lemma TrailingSlashMissesPath(oldKey: string)
    requires EndsInSlash(oldKey)
    ensures InSubtree(oldKey, StripSlashes(oldKey)) && !Selected(oldKey, StripSlashes(oldKey))
  {
    StripSlashesIsPrefix(oldKey);
    var path := StripSlashes(oldKey);
    SlashesOfConcat(path, "/%");
    assert "/%"[1..] == "%" && "%"[1..] == "" && Slashes("%") == 0 && Slashes("/%") == 1;
    if Like(path + "/%", path) { LikeKeepsSlashes(path + "/%", path); }
  }

  /** A letter of the key also matches in the other case. */
  function OtherCase(c: char): char {
    if 'A' <= c <= 'Z' then c - 'A' + 'a' else if 'a' <= c <= 'z' then c - 'a' + 'A' else c
  }

  /** Neither wildcards, nor letters, nor a trailing slash. */
  predicate IsExact(oldKey: string) {
    Plain(oldKey) && !EndsInSlash(oldKey) && forall i :: 0 <= i < |oldKey| ==> !IsLetter(oldKey[i])
  }

  lemma NoLettersOneSpelling(a: string, b: string)
    requires SameUpToCase(a, b) && forall i :: 0 <= i < |a| ==> !IsLetter(a[i])
    ensures a == b
  {
    forall i | 0 <= i < |a| ensures a[i] == b[i] {
      assert Fold(a[i]) == Fold(b[i]);
    }
  }

  lemma LetterSelectsStranger(oldKey: string, i: nat)
    requires Plain(oldKey) && !EndsInSlash(oldKey) && i < |oldKey| && IsLetter(oldKey[i])
    ensures
      var key := oldKey[i := OtherCase(oldKey[i])] + "/";
      Selected(oldKey, key) && !InSubtree(oldKey, key)
  {
    var spelling := oldKey[i := OtherCase(oldKey[i])];
    var key := spelling + "/";
    assert key[..|oldKey|] == spelling && spelling[i] != oldKey[i];
    StrangersAreOtherSpellings(oldKey, key);
  }

  /** The selection is the subtree, for all paths, exactly for keys without wildcard, letter and trailing slash. */
  lemma SelectionIsSubtreeIff(oldKey: string)
    ensures (forall key :: Selected(oldKey, key) <==> InSubtree(oldKey, key)) <==> IsExact(oldKey)
  {
    if IsExact(oldKey) {
      forall key ensures Selected(oldKey, key) <==> InSubtree(oldKey, key) {
        ExactSelectsSubtree(oldKey, key);
      }
    } else if i :| 0 <= i < |oldKey| && IsWildcard(oldKey[i]) {
      WildcardSelectsStranger(oldKey, i);
    } else if EndsInSlash(oldKey) {
      TrailingSlashMissesPath(oldKey);
    } else {
      var i :| 0 <= i < |oldKey| && IsLetter(oldKey[i]);
      LetterSelectsStranger(oldKey, i);
    }
  }

  lemma ExactSelectsSubtree(oldKey: string, key: string)
    requires IsExact(oldKey)
    ensures Selected(oldKey, key) <==> InSubtree(oldKey, key)
  {
    StrangersAreOtherSpellings(oldKey, key);
    if InSubtree(oldKey, key) { SubtreeIsSelected(oldKey, key); }
    if |key| > |oldKey| && SameUpToCase(oldKey, key[..|oldKey|]) { NoLettersOneSpelling(oldKey, key[..|oldKey|]); }
  }

  // ---------------------------------------------------------------- the operations

  predicate Hit(scope: Scope, oldKey: string, row: RowKey) {
    row.scope == scope && Selected(oldKey, row.resource)
  }

  function Hits(rows: Rows, scope: Scope, oldKey: string): set<RowKey> {
    set row | row in rows && Hit(scope, oldKey, row)
  }

  /** The slice from `length` on, empty when the text is shorter. */
  function Suffix(text: string, length: nat): string {
    if |text| <= length then "" else text[length..]
  }

  function Renamed(row: RowKey, oldKey: string, newKey: string): RowKey {
    RowKey(row.scope, newKey + Suffix(row.resource, |oldKey|))
  }

  function Targets(hits: set<RowKey>, oldKey: string, newKey: string): set<RowKey> {
    set row | row in hits :: Renamed(row, oldKey, newKey)
  }

  /** Some renamed row ended up under `key` with its record. */
  ghost predicate ComesFrom(rows: Rows, hits: set<RowKey>, oldKey: string, newKey: string, key: RowKey,
      record: Record) {
    exists row :: row in hits && row in rows && Renamed(row, oldKey, newKey) == key && rows[row] == record
  }

  /** The hits have left, and those in `done` have arrived renamed with their records; all other rows stay. */
  ghost predicate Arrived(rows: Rows, after: Rows, hits: set<RowKey>, done: set<RowKey>, oldKey: string,
      newKey: string) {
    var targets := Targets(done, oldKey, newKey);
    && after.Keys == (rows.Keys - hits) + targets
    && (forall key :: key in after && key !in targets ==> after[key] == rows[key])
    && (forall key :: key in targets ==> ComesFrom(rows, hits, oldKey, newKey, key, after[key]))
  }

  /** The effect of a deletion. */
  ghost predicate Deleted(rows: Rows, after: Rows, scope: Scope, oldKey: string) {
    after == rows - Hits(rows, scope, oldKey)
  }

  /** The effect of a rename. */
  ghost predicate Moved(rows: Rows, after: Rows, scope: Scope, oldKey: string, newKey: string) {
    var hits := Hits(rows, scope, oldKey);
    Arrived(rows, after, hits, hits, oldKey, newKey)
  }

  lemma OneMoreArrives(
    rows: Rows, after: Rows, hits: set<RowKey>, done: set<RowKey>, row: RowKey, oldKey: string, newKey: string)
    requires Arrived(rows, after, hits, done, oldKey, newKey)
    requires done <= hits <= rows.Keys && row in hits && row !in done
    ensures Arrived(rows, after[Renamed(row, oldKey, newKey) := rows[row]], hits, done + {row}, oldKey, newKey)
  {
  }

  lemma NothingArrivedYet(rows: Rows, hits: set<RowKey>, oldKey: string, newKey: string)
    ensures Arrived(rows, rows - hits, hits, {}, oldKey, newKey)
  {
  }

  lemma AllArrivedIsMoved(rows: Rows, after: Rows, scope: Scope, oldKey: string, newKey: string)
    requires Arrived(rows, after, Hits(rows, scope, oldKey), Hits(rows, scope, oldKey), oldKey, newKey)
    ensures Moved(rows, after, scope, oldKey, newKey)
  {
  }

  class OwnershipTable {
    var rows: Rows

    constructor ()
      ensures rows == map[]
    {
      rows := map[];
    }

    /** The first recorded creator of a key stays its creator. */
    method RecordContentOwner(key: RowKey, creator: int, now: string)
      modifies this
      ensures rows == old(rows)[key := if key in old(rows) then old(rows)[key] else Record(creator, now)]
    {
      if key !in rows { rows := rows[key := Record(creator, now)]; }
    }

    method MoveContentOwnership(scope: Scope, oldKey: string, newKey: Option<string>)
      modifies this
      ensures newKey.None? ==> Deleted(old(rows), rows, scope, oldKey)
      ensures newKey.Some? ==> Moved(old(rows), rows, scope, oldKey, newKey.value)
    {
      var before, hits := rows, Hits(rows, scope, oldKey);
      if newKey.None? {
        rows := rows - hits;
        return;
      }
      // the transaction commits at the end
      var table, todo := before - hits, hits;
      NothingArrivedYet(before, hits, oldKey, newKey.value);
      assert hits - todo == {};
      hide Arrived, Moved, Renamed;
      while todo != {}
        invariant todo <= hits
        invariant Arrived(before, table, hits, hits - todo, oldKey, newKey.value)
        decreases todo
      {
        var row :| row in todo;
        OneMoreArrives(before, table, hits, hits - todo, row, oldKey, newKey.value);
        assert hits - todo + {row} == hits - (todo - {row});
        table := table[Renamed(row, oldKey, newKey.value) := before[row]];
        todo := todo - {row};
      }
      assert hits - todo == hits;
      AllArrivedIsMoved(before, table, scope, oldKey, newKey.value);
      rows := table;
    }
  }

  // ---------------------------------------------------------------- no record is lost

  ghost predicate RenamesApart(hits: set<RowKey>, oldKey: string, newKey: string) {
    forall a, b :: a in hits && b in hits && Renamed(a, oldKey, newKey) == Renamed(b, oldKey, newKey) ==> a == b
  }

  /** As many targets as hits exactly when no two hits get the same name. */
  lemma {:induction false} TargetCount(hits: set<RowKey>, oldKey: string, newKey: string)
    ensures |Targets(hits, oldKey, newKey)| <= |hits|
    ensures |Targets(hits, oldKey, newKey)| == |hits| <==> RenamesApart(hits, oldKey, newKey)
    decreases hits
  {
    if hits == {} {
    } else {
      var row :| row in hits;
      var rest, target := hits - {row}, Renamed(row, oldKey, newKey);
      TargetCount(rest, oldKey, newKey);
      assert Targets(hits, oldKey, newKey) == Targets(rest, oldKey, newKey) + {target};
      if target in Targets(rest, oldKey, newKey) {
        var other :| other in rest && Renamed(other, oldKey, newKey) == target;
        assert other in hits && other != row;
        assert Targets(hits, oldKey, newKey) == Targets(rest, oldKey, newKey);
      } else if RenamesApart(rest, oldKey, newKey) {
        forall a, b | a in hits && b in hits && Renamed(a, oldKey, newKey) == Renamed(b, oldKey, newKey)
          ensures a == b
        {
          assert a in rest ==> Renamed(a, oldKey, newKey) in Targets(rest, oldKey, newKey);
          assert b in rest ==> Renamed(b, oldKey, newKey) in Targets(rest, oldKey, newKey);
        }
      }
    }
  }

  /**
    A rename, of any key to any key, keeps the number of records exactly when no two selected rows
    get the same name and no row that stays has the name of an arriving one.
   */
  lemma CountIsConservedIff(rows: Rows, after: Rows, scope: Scope, oldKey: string, newKey: string)
    requires Moved(rows, after, scope, oldKey, newKey)
    ensures
      var hits := Hits(rows, scope, oldKey);
      |after| == |rows| <==>
        RenamesApart(hits, oldKey, newKey) && (rows.Keys - hits) !! Targets(hits, oldKey, newKey)
  {
    var hits := Hits(rows, scope, oldKey);
    var rest, targets := rows.Keys - hits, Targets(hits, oldKey, newKey);
    TargetCount(hits, oldKey, newKey);
    assert after.Keys == rest + targets && rows.Keys == rest + hits;
    assert |after| == |after.Keys| && |rows| == |rows.Keys|;
    hide *;
    UnionSize(rest, targets);
    UnionSize(rest, hits);
  }

  /** Every selected row is the path itself or lies below it. */
  ghost predicate NoStrangers(rows: Rows, scope: Scope, oldKey: string) {
    forall row :: row in rows && Hit(scope, oldKey, row) ==> InSubtree(oldKey, row.resource)
  }

  /** Nothing that stays is selected by the new key. */
  ghost predicate DestinationIsFree(rows: Rows, scope: Scope, oldKey: string, newKey: string) {
    forall row :: row in rows && Hit(scope, newKey, row) ==> Hit(scope, oldKey, row)
  }

  lemma RenameOfStart(oldKey: string, newKey: string, row: RowKey)
    requires Starts(oldKey, row.resource)
    ensures row.resource == oldKey + Suffix(row.resource, |oldKey|)
    ensures Starts(newKey, Renamed(row, oldKey, newKey).resource)
    ensures Renamed(Renamed(row, oldKey, newKey), newKey, oldKey) == row
  {
  }

  lemma SubtreeRename(oldKey: string, newKey: string, row: RowKey)
    requires !EndsInSlash(oldKey) && !EndsInSlash(newKey) && InSubtree(oldKey, row.resource)
    ensures Starts(oldKey, row.resource)
    ensures InSubtree(newKey, Renamed(row, oldKey, newKey).resource)
    ensures Renamed(Renamed(row, oldKey, newKey), newKey, oldKey) == row
  {
    RenameOfStart(oldKey, newKey, row);
  }

  /** Each selected row has arrived under its new name with its own creator and time. */
  ghost predicate RecordsKept(rows: Rows, after: Rows, scope: Scope, oldKey: string, newKey: string) {
    forall row :: row in Hits(rows, scope, oldKey) ==>
      Renamed(row, oldKey, newKey) in after && after[Renamed(row, oldKey, newKey)] == rows[row]
  }

  /** Every selected row starts with the key. */
  ghost predicate AllStart(rows: Rows, scope: Scope, oldKey: string) {
    forall row :: row in rows && Hit(scope, oldKey, row) ==> Starts(oldKey, row.resource)
  }

  /** It does where nothing but the subtree is selected, or where the key ends in one slash. */
  lemma SubtreeStarts(rows: Rows, scope: Scope, oldKey: string)
    requires NoStrangers(rows, scope, oldKey) && (EndsInSlash(oldKey) ==> oldKey == StripSlashes(oldKey) + "/")
    ensures AllStart(rows, scope, oldKey)
  {
    forall row | row in rows && Hit(scope, oldKey, row) ensures Starts(oldKey, row.resource) {
      var path := StripSlashes(oldKey);
      if EndsInSlash(oldKey) {
        if row.resource == path { TrailingSlashMissesPath(oldKey); }
        assert row.resource[..|path| + 1] == row.resource[..|path|] + [row.resource[|path|]];
      }
    }
  }

  /**
    Where all that is selected starts with the key, names stay apart, and each record keeps its
    creator and its time under its new name.
   */
  lemma SubtreeKeepsRecords(rows: Rows, after: Rows, scope: Scope, oldKey: string, newKey: string)
    requires Moved(rows, after, scope, oldKey, newKey) && AllStart(rows, scope, oldKey)
    ensures RenamesApart(Hits(rows, scope, oldKey), oldKey, newKey)
    ensures RecordsKept(rows, after, scope, oldKey, newKey)
  {
    var hits := Hits(rows, scope, oldKey);
    forall a, b | a in hits && b in hits && Renamed(a, oldKey, newKey) == Renamed(b, oldKey, newKey) ensures a == b {
      RenameOfStart(oldKey, newKey, a);
      RenameOfStart(oldKey, newKey, b);
    }
    forall row | row in hits
      ensures Renamed(row, oldKey, newKey) in after && after[Renamed(row, oldKey, newKey)] == rows[row]
    {
      var target := Renamed(row, oldKey, newKey);
      assert target in Targets(hits, oldKey, newKey);
      assert ComesFrom(rows, hits, oldKey, newKey, target, after[target]);
    }
  }

  /** Renaming a subtree to a free destination and back restores the table exactly. */
  lemma RenameBackRestores(rows: Rows, middle: Rows, after: Rows, scope: Scope, oldKey: string, newKey: string)
    requires !EndsInSlash(oldKey) && !EndsInSlash(newKey)
    requires NoStrangers(rows, scope, oldKey) && DestinationIsFree(rows, scope, oldKey, newKey)
    requires Moved(rows, middle, scope, oldKey, newKey) && Moved(middle, after, scope, newKey, oldKey)
    ensures |middle| == |rows| && after == rows
  {
    hide *;
    var hits := Hits(rows, scope, oldKey);
    HitsAreInSubtree(rows, scope, oldKey);
    MovedIsSelectedBack(rows, middle, scope, oldKey, newKey);
    CountIsConservedIff(rows, middle, scope, oldKey, newKey);
    SubtreeOfPathStarts(rows, scope, oldKey);
    SubtreeKeepsRecords(rows, middle, scope, oldKey, newKey);
    SubtreeOfPathStarts(middle, scope, newKey);
    SubtreeKeepsRecords(middle, after, scope, newKey, oldKey);
    TargetsComeBack(hits, oldKey, newKey);
    forall row | row in rows ensures row in after && after[row] == rows[row] {
      if row in hits {
        ThereAndBack(rows, middle, after, scope, oldKey, newKey, row);
      } else {
        StaysPut(rows, middle, after, scope, oldKey, newKey, row);
      }
    }
    KeysComeBack(rows, middle, after, scope, oldKey, newKey);
  }

  lemma SubtreeOfPathStarts(rows: Rows, scope: Scope, oldKey: string)
    requires NoStrangers(rows, scope, oldKey) && !EndsInSlash(oldKey)
    ensures AllStart(rows, scope, oldKey)
  {
    SubtreeStarts(rows, scope, oldKey);
  }

  lemma HitsAreInSubtree(rows: Rows, scope: Scope, oldKey: string)
    requires NoStrangers(rows, scope, oldKey)
    ensures forall row :: row in Hits(rows, scope, oldKey) ==> row in rows && InSubtree(oldKey, row.resource)
  {
  }

  lemma KeysComeBack(rows: Rows, middle: Rows, after: Rows, scope: Scope, oldKey: string, newKey: string)
    requires Moved(rows, middle, scope, oldKey, newKey) && Moved(middle, after, scope, newKey, oldKey)
    requires Hits(middle, scope, newKey) == Targets(Hits(rows, scope, oldKey), oldKey, newKey)
    requires Targets(Hits(middle, scope, newKey), newKey, oldKey) == Hits(rows, scope, oldKey)
    ensures after.Keys <= rows.Keys
  {
  }

  lemma ThereAndBack(
    rows: Rows, middle: Rows, after: Rows, scope: Scope, oldKey: string, newKey: string, row: RowKey)
    requires !EndsInSlash(oldKey) && !EndsInSlash(newKey)
    requires row in Hits(rows, scope, oldKey) && InSubtree(oldKey, row.resource)
    requires Hits(middle, scope, newKey) == Targets(Hits(rows, scope, oldKey), oldKey, newKey)
    requires RecordsKept(rows, middle, scope, oldKey, newKey) && RecordsKept(middle, after, scope, newKey, oldKey)
    ensures row in after && after[row] == rows[row]
  {
    var target := Renamed(row, oldKey, newKey);
    SubtreeRename(oldKey, newKey, row);
    hide InSubtree, Renamed, EndsInSlash;
    assert target in Targets(Hits(rows, scope, oldKey), oldKey, newKey);
    assert target in Hits(middle, scope, newKey);
  }

  lemma StaysPut(
    rows: Rows, middle: Rows, after: Rows, scope: Scope, oldKey: string, newKey: string, row: RowKey)
    requires row in rows && row !in Hits(rows, scope, oldKey)
    requires Moved(rows, middle, scope, oldKey, newKey) && Moved(middle, after, scope, newKey, oldKey)
    requires row !in Targets(Hits(rows, scope, oldKey), oldKey, newKey)
    requires Hits(middle, scope, newKey) == Targets(Hits(rows, scope, oldKey), oldKey, newKey)
    requires Targets(Hits(middle, scope, newKey), newKey, oldKey) == Hits(rows, scope, oldKey)
    ensures row in after && after[row] == rows[row]
  {
    hide Targets, ComesFrom;
  }

  lemma TargetsComeBack(hits: set<RowKey>, oldKey: string, newKey: string)
    requires !EndsInSlash(oldKey) && !EndsInSlash(newKey)
    requires forall row :: row in hits ==> InSubtree(oldKey, row.resource)
    ensures Targets(Targets(hits, oldKey, newKey), newKey, oldKey) == hits
  {
    var targets := Targets(hits, oldKey, newKey);
    forall row | row in hits
      ensures Renamed(row, oldKey, newKey) in targets && Renamed(Renamed(row, oldKey, newKey), newKey, oldKey) == row
    {
      SubtreeRename(oldKey, newKey, row);
    }
  }

  lemma MovedIsSelectedBack(rows: Rows, middle: Rows, scope: Scope, oldKey: string, newKey: string)
    requires !EndsInSlash(oldKey) && !EndsInSlash(newKey)
    requires NoStrangers(rows, scope, oldKey) && DestinationIsFree(rows, scope, oldKey, newKey)
    requires Moved(rows, middle, scope, oldKey, newKey)
    ensures Hits(middle, scope, newKey) == Targets(Hits(rows, scope, oldKey), oldKey, newKey)
    ensures (rows.Keys - Hits(rows, scope, oldKey)) !! Targets(Hits(rows, scope, oldKey), oldKey, newKey)
    ensures NoStrangers(middle, scope, newKey)
  {
    var hits := Hits(rows, scope, oldKey);
    forall row | row in hits
      ensures Hit(scope, newKey, Renamed(row, oldKey, newKey))
      ensures InSubtree(newKey, Renamed(row, oldKey, newKey).resource)
    {
      SubtreeRename(oldKey, newKey, row);
      SubtreeIsSelected(newKey, Renamed(row, oldKey, newKey).resource);
    }
    forall row | row in rows.Keys - hits ensures !Hit(scope, newKey, row) {
    }
  }

  /** For a plain key the strangers, and with them every loss, come from other spellings only. */
  lemma PlainKeyHasNoStrangersIff(rows: Rows, scope: Scope, oldKey: string)
    requires Plain(oldKey) && !EndsInSlash(oldKey)
    ensures NoStrangers(rows, scope, oldKey) <==>
            forall row :: row in rows && row.scope == scope ==> !BelowOtherSpelling(oldKey, row.resource)
  {
    forall row | row in rows && row.scope == scope
      ensures Hit(scope, oldKey, row) && !InSubtree(oldKey, row.resource) <==> BelowOtherSpelling(oldKey, row.resource)
    {
      StrangersAreOtherSpellings(oldKey, row.resource);
    }
  }

  // ---------------------------------------------------------------- the effects row by row

  /** The row is the path itself, lies below it, or lies below another spelling of it. */
  predicate Affected(scope: Scope, oldKey: string, row: RowKey) {
    row.scope == scope && (InSubtree(oldKey, row.resource) || BelowOtherSpelling(oldKey, row.resource))
  }

  lemma HitIffAffected(scope: Scope, oldKey: string, row: RowKey)
    requires Plain(oldKey) && !EndsInSlash(oldKey)
    ensures Hit(scope, oldKey, row) <==> Affected(scope, oldKey, row)
  {
    StrangersAreOtherSpellings(oldKey, row.resource);
    if InSubtree(oldKey, row.resource) { SubtreeIsSelected(oldKey, row.resource); }
  }

  /**
    A deletion leaves nothing of the scope in the subtree and nothing new anywhere, wildcards or not,
    and touches no other scope. For a plain key exactly the affected rows have gone.
   */
  lemma DeletionTakesSubtree(rows: Rows, after: Rows, scope: Scope, oldKey: string)
    requires Deleted(rows, after, scope, oldKey) && !EndsInSlash(oldKey)
    ensures forall row :: row in after ==> row in rows && after[row] == rows[row]
    ensures forall row :: row in after && row.scope == scope ==> !InSubtree(oldKey, row.resource)
    ensures forall row :: row in rows && row.scope != scope ==> row in after
    ensures Plain(oldKey) ==> forall row :: row in rows ==> (row in after <==> !Affected(scope, oldKey, row))
  {
    forall row | row in rows && row.scope == scope && InSubtree(oldKey, row.resource) ensures row !in after {
      SubtreeIsSelected(oldKey, row.resource);
    }
    if Plain(oldKey) {
      forall row | row in rows ensures row in after <==> !Affected(scope, oldKey, row) {
        HitIffAffected(scope, oldKey, row);
      }
    }
  }

  /** `key` is what remains of `row` behind the old key, put behind the new one. */
  predicate IsNewName(oldKey: string, newKey: string, row: RowKey, key: RowKey) {
    && key.scope == row.scope && |row.resource| >= |oldKey|
    && key.resource == newKey + row.resource[|oldKey|..]
  }

  /** Where only the subtree is selected, each of its rows is found under its new name, with its record. */
  lemma RenameTakesSubtree(rows: Rows, after: Rows, scope: Scope, oldKey: string, newKey: string, row: RowKey)
    returns (key: RowKey)
    requires Moved(rows, after, scope, oldKey, newKey)
    requires !EndsInSlash(oldKey) && NoStrangers(rows, scope, oldKey)
    requires row in rows && row.scope == scope && InSubtree(oldKey, row.resource)
    ensures IsNewName(oldKey, newKey, row, key) && key in after && after[key] == rows[row]
  {
    SubtreeStarts(rows, scope, oldKey);
    SubtreeKeepsRecords(rows, after, scope, oldKey, newKey);
    SubtreeIsSelected(oldKey, row.resource);
    assert row in Hits(rows, scope, oldKey);
    key := Renamed(row, oldKey, newKey);
  }

  /** Some affected row gets this name. */
  ghost predicate Arrives(rows: Rows, scope: Scope, oldKey: string, newKey: string, key: RowKey) {
    exists row :: row in rows && Affected(scope, oldKey, row) && IsNewName(oldKey, newKey, row, key)
  }

  lemma TargetIffArrives(rows: Rows, scope: Scope, oldKey: string, newKey: string, key: RowKey)
    requires Plain(oldKey) && !EndsInSlash(oldKey)
    ensures key in Targets(Hits(rows, scope, oldKey), oldKey, newKey) <==> Arrives(rows, scope, oldKey, newKey, key)
  {
    if key in Targets(Hits(rows, scope, oldKey), oldKey, newKey) {
      var row :| row in Hits(rows, scope, oldKey) && Renamed(row, oldKey, newKey) == key;
      HitIffAffected(scope, oldKey, row);
      assert IsNewName(oldKey, newKey, row, key);
    }
    if Arrives(rows, scope, oldKey, newKey, key) {
      var row :| row in rows && Affected(scope, oldKey, row) && IsNewName(oldKey, newKey, row, key);
      HitIffAffected(scope, oldKey, row);
      assert row in Hits(rows, scope, oldKey) && Renamed(row, oldKey, newKey) == key;
    }
  }

  /**
    After a rename of a plain key the table holds exactly the new names of the affected rows and the
    rows not affected; the latter are as before unless the name of an arriving row is theirs.
   */
  lemma RenameHolds(rows: Rows, after: Rows, scope: Scope, oldKey: string, newKey: string, key: RowKey)
    requires Moved(rows, after, scope, oldKey, newKey) && Plain(oldKey) && !EndsInSlash(oldKey)
    ensures key in after <==>
            Arrives(rows, scope, oldKey, newKey, key) || (key in rows && !Affected(scope, oldKey, key))
    ensures key in after && !Arrives(rows, scope, oldKey, newKey, key) ==> after[key] == rows[key]
  {
    HitIffAffected(scope, oldKey, key);
    TargetIffArrives(rows, scope, oldKey, newKey, key);
  }

  /** No rename, of any key to any key, touches another organization or another kind of content. */
  lemma OtherScopesStay(rows: Rows, after: Rows, scope: Scope, oldKey: string, newKey: string, key: RowKey)
    requires Moved(rows, after, scope, oldKey, newKey) && key.scope != scope
    ensures key in after <==> key in rows
    ensures key in after ==> after[key] == rows[key]
  {
    hide Selected;
  }

  /** Two spellings of one directory: renaming either merges them, and one of two equal names is lost. */
  lemma OtherSpellingLosesRecord(rows: Rows, after: Rows, scope: Scope, oldKey: string, newKey: string,
      a: RowKey, b: RowKey)
    requires Plain(oldKey) && !EndsInSlash(oldKey)
    requires a in rows && b in rows && a.scope == b.scope == scope
    requires InSubtree(oldKey, a.resource) && BelowOtherSpelling(oldKey, b.resource)
    requires Suffix(a.resource, |oldKey|) == Suffix(b.resource, |oldKey|)
    requires Moved(rows, after, scope, oldKey, newKey)
    ensures |after| != |rows|
  {
    StrangersAreOtherSpellings(oldKey, b.resource);
    SubtreeIsSelected(oldKey, a.resource);
    var hits := Hits(rows, scope, oldKey);
    assert a in hits && b in hits && a != b;
    assert Renamed(a, oldKey, newKey) == Renamed(b, oldKey, newKey);
    CountIsConservedIff(rows, after, scope, oldKey, newKey);
  }

  /**
    With a trailing slash on the old key the path itself is left behind, and the names below it are
    glued to the new key without a separator.
   */
  lemma TrailingSlashGluesNames(key: string, rest: string, newKey: string, scope: Scope)
    requires !EndsInSlash(key)
    ensures !Selected(key + "/", key)
    ensures Selected(key + "/", key + "/" + rest)
    ensures Renamed(RowKey(scope, key + "/" + rest), key + "/", newKey).resource == newKey + rest
  {
    assert (key + "/")[..|key|] == key;
    TrailingSlashMissesPath(key + "/");
    assert key + "/%" == (key + "/") + "%";
    PrefixIsAlwaysFound(key + "/", rest);
    assert Suffix(key + "/" + rest, |key + "/"|) == rest;
  }
}
