/**
 * The plan table's name search: with an empty query the table shows the
 * data as given; otherwise it shows the items whose lower-cased `nome`
 * contains the lower-cased query, and the table's item count is the length
 * of what it shows. Lower- and upper-casing are modelled on ASCII letters.
 */
module EmployeeTable {

  /** A row of the table: its `nome` and the rest of its fields. */
  datatype Item = Item(nome: string, fields: map<string, string>)

  /** What the table is handed: the rows to show and their count. */
  datatype TableProps = TableProps(rows: seq<Item>, totalItems: nat)

  function LowerChar(ch: char): char {
    if 'A' <= ch <= 'Z' then (ch as int + 32) as char else ch
  }

  function UpperChar(ch: char): char {
    if 'a' <= ch <= 'z' then (ch as int - 32) as char else ch
  }

  /** `toLowerCase`, on ASCII letters. */
  function ToLower(s: string): string {
    seq(|s|, i requires 0 <= i < |s| => LowerChar(s[i]))
  }

  /** `toUpperCase`, on ASCII letters. */
  function ToUpper(s: string): string {
    seq(|s|, i requires 0 <= i < |s| => UpperChar(s[i]))
  }

  /** `hay.includes(needle)`, scanning the start positions from left to right. */
  predicate Includes(hay: string, needle: string)
    decreases |hay|
  {
    if |needle| > |hay| then false
    else hay[..|needle|] == needle || (hay != [] && Includes(hay[1..], needle))
  }

  /** The filter's test for one item. */
  predicate NameMatches(item: Item, query: string) {
    Includes(ToLower(item.nome), ToLower(query))
  }

  /** `data.filter(...)`: the items whose name matches, in their original order. */
  function KeepMatching(data: seq<Item>, query: string): (r: seq<Item>)
    ensures |r| <= |data|
    ensures forall x :: x in r ==> x in data && NameMatches(x, query)
    ensures forall x :: x in data && NameMatches(x, query) ==> x in r
  {
    if data == [] then []
    else if NameMatches(data[0], query) then [data[0]] + KeepMatching(data[1..], query)
    else KeepMatching(data[1..], query)
  }

  /** The rows the table shows for `searchQuery`. */
  function FilterByName(data: seq<Item>, searchQuery: string): (r: seq<Item>)
    ensures searchQuery == "" ==> r == data
    ensures forall x :: x in r ==> x in data && NameMatches(x, searchQuery)
    ensures forall x :: x in data && NameMatches(x, searchQuery) ==> x in r
  {
    if searchQuery != "" then KeepMatching(data, searchQuery) else data
  }

  /** What the table is handed: the filtered rows and their number. */
  function Table(data: seq<Item>, searchQuery: string): (t: TableProps)
    ensures t.rows == FilterByName(data, searchQuery)
    ensures t.totalItems == |t.rows| <= |data|
    ensures searchQuery == "" ==> t.totalItems == |data|
  {
    var rows := FilterByName(data, searchQuery);
    SubsequenceOfData(data, searchQuery);
    TableProps(rows, |rows|)
  }

  // ---------------------------------------------------------------------
  // Properties of the filter
  // ---------------------------------------------------------------------

  /** `sub` is `s` with some elements removed, the rest in their order. */
  predicate IsSubsequence<T(==)>(sub: seq<T>, s: seq<T>)
    decreases |s|
  {
    if sub == [] then true
    else if s == [] then false
    else if sub[0] == s[0] then IsSubsequence(sub[1..], s[1..])
    else IsSubsequence(sub, s[1..])
  }

  /** Every name contains the empty string. */
  lemma {:induction false} IncludesEmpty(hay: string)
    ensures Includes(hay, "")
  {
  }

  /** `needle` occurs in `hay` starting at position `i`. */
  predicate OccursAt(hay: string, needle: string, i: int) {
    0 <= i <= |hay| - |needle| && hay[i..i + |needle|] == needle
  }

  /** `Includes` finds the needle exactly when it occurs at some position. */
  lemma {:induction false} IncludesSpec(hay: string, needle: string)
    ensures Includes(hay, needle) <==> exists i :: OccursAt(hay, needle, i)
    decreases |hay|
  {
    if |needle| <= |hay| && hay != [] {
      IncludesSpec(hay[1..], needle);
      if hay[..|needle|] == needle {
        assert hay[0..|needle|] == hay[..|needle|];
        assert OccursAt(hay, needle, 0);
      }
      if Includes(hay[1..], needle) {
        var i :| OccursAt(hay[1..], needle, i);
        assert hay[i + 1..i + 1 + |needle|] == hay[1..][i..i + |needle|];
        assert OccursAt(hay, needle, i + 1);
      }
      if exists i :: OccursAt(hay, needle, i) {
        var i :| OccursAt(hay, needle, i);
        if i > 0 {
          assert hay[1..][i - 1..i - 1 + |needle|] == hay[i..i + |needle|];
          assert OccursAt(hay[1..], needle, i - 1);
        } else {
          assert hay[..|needle|] == hay[0..|needle|];
        }
      }
    } else if |needle| <= |hay| {
      assert OccursAt(hay, needle, 0);
    }
  }

  /** With an empty query the filter would keep everything: the empty-query branch agrees with it. */
  lemma {:induction false} EmptyQueryKeepsAll(data: seq<Item>)
    ensures KeepMatching(data, "") == data
  {
    if data != [] {
      IncludesEmpty(ToLower(data[0].nome));
      assert NameMatches(data[0], "");
      EmptyQueryKeepsAll(data[1..]);
    }
  }

  /** The rows shown are the data with the non-matching rows removed, in the same order. */
  lemma {:induction false} KeepMatchingSubsequence(data: seq<Item>, query: string)
    ensures IsSubsequence(KeepMatching(data, query), data)
  {
    if data != [] {
      KeepMatchingSubsequence(data[1..], query);
      if !NameMatches(data[0], query) {
        var r := KeepMatching(data[1..], query);
        if r != [] {
          assert r[0] in r;
        }
      }
    }
  }

  lemma SubsequenceOfData(data: seq<Item>, searchQuery: string)
    ensures IsSubsequence(FilterByName(data, searchQuery), data)
  {
    if searchQuery != "" {
      KeepMatchingSubsequence(data, searchQuery);
    } else {
      SubsequenceReflexive(data);
    }
  }

  lemma {:induction false} SubsequenceReflexive<T>(s: seq<T>)
    ensures IsSubsequence(s, s)
  {
    if s != [] {
      SubsequenceReflexive(s[1..]);
    }
  }

  /** Each matching row is kept as often as it occurs; the others not at all. */
  lemma {:induction false} KeepMatchingCounts(data: seq<Item>, query: string, x: Item)
    ensures multiset(KeepMatching(data, query))[x] ==
      if NameMatches(x, query) then multiset(data)[x] else 0
  {
    if data != [] {
      KeepMatchingCounts(data[1..], query, x);
      assert data == [data[0]] + data[1..];
    }
  }

  /** Upper-casing the query does not change what is shown. */
  lemma CaseInsensitive(data: seq<Item>, searchQuery: string)
    ensures FilterByName(data, ToUpper(searchQuery)) == FilterByName(data, searchQuery)
  {
    assert ToLower(ToUpper(searchQuery)) == ToLower(searchQuery);
    KeepMatchingSameLowered(data, ToUpper(searchQuery), searchQuery);
  }

  lemma {:induction false} KeepMatchingSameLowered(data: seq<Item>, q1: string, q2: string)
    requires ToLower(q1) == ToLower(q2)
    ensures KeepMatching(data, q1) == KeepMatching(data, q2)
  {
    if data != [] {
      KeepMatchingSameLowered(data[1..], q1, q2);
    }
  }

  /** Filtering what is shown again with the same query changes nothing. */
  lemma {:induction false} FilterIdempotent(data: seq<Item>, searchQuery: string)
    ensures FilterByName(FilterByName(data, searchQuery), searchQuery) == FilterByName(data, searchQuery)
  {
    if searchQuery != "" {
      KeepMatchingIdempotent(data, searchQuery);
    }
  }

  lemma {:induction false} KeepMatchingIdempotent(data: seq<Item>, query: string)
    ensures KeepMatching(KeepMatching(data, query), query) == KeepMatching(data, query)
  {
    if data != [] {
      KeepMatchingIdempotent(data[1..], query);
    }
  }
}
