/**
 * Alias tables: a canonical name with the names users may type for it.
 * Both the plugin's command, direction and role tables and the character
 * database are resolved through these lookups.
 */
module Aliases {
  import opened Wrappers
  import opened Text

  /** Canonical names with their accepted names, in declaration order. */
  type Table = seq<(string, seq<string>)>

  /** The canonical names of a table, in order: `list(table.keys())`. */
  function Canonicals(table: Table): (r: seq<string>)
    ensures |r| == |table|
    ensures forall i :: 0 <= i < |table| ==> r[i] == table[i].0
  {
    seq(|table|, i requires 0 <= i < |table| => table[i].0)
  }

  /** `key` is one of `names` or the lower-cased form of one. */
  predicate Mentions(names: seq<string>, key: string) {
    exists n :: n in names && (n == key || Lower(n) == key)
  }

  /** `lookup[name] = canonical; lookup[name.lower()] = canonical` for each name in turn. */
  function AddNames(lookup: map<string, string>, canonical: string, names: seq<string>): map<string, string>
    decreases |names|
  {
    if names == [] then lookup
    else
      var last := names[|names| - 1];
      AddNames(lookup, canonical, names[..|names| - 1])[last := canonical][Lower(last) := canonical]
  }

  /** The dictionary the nested loops over a table leave behind. */
  function LookupOf(table: Table): map<string, string>
    decreases |table|
  {
    if table == [] then map[]
    else
      var last := table[|table| - 1];
      AddNames(LookupOf(table[..|table| - 1]), last.0, last.1)
  }

  /** Fills the lookup group by group and name by name, as the plugin does at start-up. */
  method BuildLookup(table: Table) returns (lookup: map<string, string>)
    ensures lookup == LookupOf(table)
  {
    lookup := map[];
    var i := 0;
    while i < |table|
      invariant 0 <= i <= |table|
      invariant lookup == LookupOf(table[..i])
    {
      var canonical, names := table[i].0, table[i].1;
      var j := 0;
      while j < |names|
        invariant 0 <= j <= |names|
        invariant lookup == AddNames(LookupOf(table[..i]), canonical, names[..j])
      {
        assert names[..j + 1][..j] == names[..j];
        lookup := lookup[names[j] := canonical];
        lookup := lookup[Lower(names[j]) := canonical];
        j := j + 1;
      }
      assert names[..j] == names;
      assert table[..i + 1][..i] == table[..i];
      i := i + 1;
    }
    assert table[..i] == table;
  }

  /**
   * Resolves a token against a lookup: nothing for the empty token,
   * otherwise the stripped token, then its lower-cased form.
   */
  function Resolve(lookup: map<string, string>, token: string): (r: Option<string>)
    ensures r.Some? ==> token != [] && r.value in lookup.Values
    ensures r.Some? <==> token != [] && (Strip(token) in lookup || Lower(Strip(token)) in lookup)
    ensures token != [] && Strip(token) in lookup ==> r == Some(lookup[Strip(token)])
  {
    if token == [] then None
    else
      var stripped := Strip(token);
      var lowered := Lower(stripped);
      if stripped in lookup then Some(lookup[stripped])
      else if lowered in lookup then Some(lookup[lowered])
      else None
  }

  /** `stripped` or `lowered` is literally one of `names` (no lower-casing of the names). */
  predicate Matches(names: seq<string>, stripped: string, lowered: string) {
    stripped in names || lowered in names
  }

  /** The canonical name of the first group matching either form. */
  function FirstMatch(table: Table, stripped: string, lowered: string): (r: Option<string>)
    ensures r.None? <==> forall i :: 0 <= i < |table| ==> !Matches(table[i].1, stripped, lowered)
    ensures r.Some? ==> exists i :: 0 <= i < |table| && Matches(table[i].1, stripped, lowered) && r.value == table[i].0
                         && forall j :: 0 <= j < i ==> !Matches(table[j].1, stripped, lowered)
    decreases |table|
  {
    if table == [] then None
    else if Matches(table[0].1, stripped, lowered) then Some(table[0].0)
    else
      var r := FirstMatch(table[1..], stripped, lowered);
      assert forall i :: 1 <= i < |table| ==> table[i] == table[1..][i - 1];
      r
  }

  /** Resolves a variant word: the first group (in declaration order) naming it wins. */
  function NormalizeVariant(token: string, table: Table): (r: Option<string>)
    ensures token == [] ==> r.None?
    ensures r.Some? ==> exists i :: 0 <= i < |table| && r.value == table[i].0
  {
    if token == [] then None else FirstMatch(table, Strip(token), Lower(Strip(token)))
  }

  // ---------------------------------------------------------------------
  // What the lookup holds
  // ---------------------------------------------------------------------

  lemma {:induction false} AddNamesHolds(lookup: map<string, string>, canonical: string, names: seq<string>, key: string)
    ensures key in AddNames(lookup, canonical, names) <==> key in lookup || Mentions(names, key)
    ensures Mentions(names, key) ==> AddNames(lookup, canonical, names)[key] == canonical
    ensures !Mentions(names, key) && key in lookup ==> AddNames(lookup, canonical, names)[key] == lookup[key]
    decreases |names|
  {
    if names != [] {
      var init, last := names[..|names| - 1], names[|names| - 1];
      AddNamesHolds(lookup, canonical, init, key);
      MentionsSnoc(init, last, key);
      assert names == init + [last];
    }
  }

  lemma MentionsSnoc(init: seq<string>, last: string, key: string)
    ensures Mentions(init + [last], key) <==> Mentions(init, key) || last == key || Lower(last) == key
  {
    var names := init + [last];
    if Mentions(names, key) && last != key && Lower(last) != key {
      var n :| n in names && (n == key || Lower(n) == key);
      assert n in init;
    }
    if Mentions(init, key) {
      var n :| n in init && (n == key || Lower(n) == key);
      assert n in names;
    }
    assert last in names;
  }

  /** The keys of the lookup are exactly the names of the table and their lower-cased forms. */
  lemma {:induction false} LookupKeys(table: Table, key: string)
    ensures key in LookupOf(table) <==> exists i :: 0 <= i < |table| && Mentions(table[i].1, key)
    decreases |table|
  {
    if table != [] {
      var init := table[..|table| - 1];
      LookupKeys(init, key);
      AddNamesHolds(LookupOf(init), table[|table| - 1].0, table[|table| - 1].1, key);
      if exists i :: 0 <= i < |table| - 1 && Mentions(table[i].1, key) {
        var i :| 0 <= i < |table| - 1 && Mentions(table[i].1, key);
        assert table[i] == init[i];
      }
      if exists i :: 0 <= i < |init| && Mentions(init[i].1, key) {
        var i :| 0 <= i < |init| && Mentions(init[i].1, key);
        assert table[i] == init[i];
      }
    }
  }

  /** A key maps to the canonical name of the last group that names it: a later group overwrites. */
  lemma {:induction false} LaterGroupWins(table: Table, i: nat, key: string)
    requires i < |table| && Mentions(table[i].1, key)
    requires forall j :: i < j < |table| ==> !Mentions(table[j].1, key)
    ensures key in LookupOf(table) && LookupOf(table)[key] == table[i].0
    decreases |table|
  {
    var init, last := table[..|table| - 1], table[|table| - 1];
    if i == |table| - 1 {
      AddNamesHolds(LookupOf(init), last.0, last.1, key);
    } else {
      forall j | i < j < |init| ensures !Mentions(init[j].1, key) {
        assert init[j] == table[j];
      }
      assert init[i] == table[i];
      LaterGroupWins(init, i, key);
      AddNamesHolds(LookupOf(init), last.0, last.1, key);
    }
  }

  /** Every value of the lookup is the canonical name of a group that names the key. */
  lemma {:induction false} LookupValue(table: Table, key: string)
    requires key in LookupOf(table)
    ensures exists i :: 0 <= i < |table| && Mentions(table[i].1, key) && LookupOf(table)[key] == table[i].0
    decreases |table|
  {
    var init, last := table[..|table| - 1], table[|table| - 1];
    AddNamesHolds(LookupOf(init), last.0, last.1, key);
    if !Mentions(last.1, key) {
      LookupValue(init, key);
      var i :| 0 <= i < |init| && Mentions(init[i].1, key) && LookupOf(init)[key] == init[i].0;
      assert table[i] == init[i];
    }
  }

  /** Resolution through a table's lookup yields one of its canonical names. */
  lemma ResolveCanonical(table: Table, token: string)
    ensures Resolve(LookupOf(table), token).Some? ==>
              exists i :: 0 <= i < |table| && Resolve(LookupOf(table), token).value == table[i].0
  {
    var lookup := LookupOf(table);
    if token != [] {
      var stripped := Strip(token);
      if stripped in lookup {
        LookupValue(table, stripped);
      } else if Lower(stripped) in lookup {
        LookupValue(table, Lower(stripped));
      }
    }
  }

  /**
   * Every name of `names` as long as `key` differs from `key` at position `k`,
   * both as written and lower-cased: a check that can be read off a literal table.
   */
  predicate ApartAll(names: seq<string>, key: string, k: nat)
    decreases |names|
  {
    || names == []
    || (&& (|names[0]| != |key| || (k < |key| && names[0][k] != key[k] && LowerChar(names[0][k]) != key[k]))
        && ApartAll(names[1..], key, k))
  }

  /** Every group after the `i`-th is apart from `key` at position `k`. */
  predicate ApartLater(table: Table, i: nat, key: string, k: nat)
    decreases |table| - i
  {
    i + 1 >= |table| || (ApartAll(table[i + 1].1, key, k) && ApartLater(table, i + 1, key, k))
  }

  lemma {:induction false} ApartAllUnmentioned(names: seq<string>, key: string, k: nat)
    requires ApartAll(names, key, k)
    ensures !Mentions(names, key)
    decreases |names|
  {
    if names != [] {
      ApartAllUnmentioned(names[1..], key, k);
      var n := names[0];
      if |n| == |key| {
        assert Lower(n)[k] == LowerChar(n[k]);
      }
      forall m | m in names ensures m != key && Lower(m) != key {
        if m != n {
          assert m in names[1..];
        }
      }
    }
  }

  /** No group after the `i`-th mentions `key`. */
  predicate NoLaterMention(table: Table, i: nat, key: string) {
    forall j :: i < j < |table| ==> !Mentions(table[j].1, key)
  }

  lemma {:induction false} ApartLaterUnmentioned(table: Table, i: nat, key: string, k: nat)
    requires ApartLater(table, i, key, k)
    ensures NoLaterMention(table, i, key)
    decreases |table| - i
  {
    if i + 1 < |table| {
      ApartAllUnmentioned(table[i + 1].1, key, k);
      ApartLaterUnmentioned(table, i + 1, key, k);
    }
  }

  /**
   * A token whose stripped form the `i`-th group names, and no later group does,
   * resolves to that group's canonical name.
   */
  lemma ResolvesToGroup(table: Table, i: nat, token: string)
    requires i < |table| && token != []
    requires Mentions(table[i].1, Strip(token)) && NoLaterMention(table, i, Strip(token))
    ensures Resolve(LookupOf(table), token) == Some(table[i].0)
  {
    LaterGroupWins(table, i, Strip(token));
  }

  /**
   * A token whose stripped form no group names, but whose lower-cased form the
   * `i`-th group names and no later group does, resolves to that group's canonical name.
   */
  lemma ResolvesLoweredToGroup(table: Table, i: nat, token: string)
    requires i < |table| && token != []
    requires forall j :: 0 <= j < |table| ==> !Mentions(table[j].1, Strip(token))
    requires Mentions(table[i].1, Lower(Strip(token))) && NoLaterMention(table, i, Lower(Strip(token)))
    ensures Resolve(LookupOf(table), token) == Some(table[i].0)
  {
    LookupKeys(table, Strip(token));
    LaterGroupWins(table, i, Lower(Strip(token)));
  }

  /** Nothing resolves when neither form of the stripped token is named by any group. */
  lemma UnknownUnresolved(table: Table, token: string)
    requires forall j :: 0 <= j < |table| ==> !Mentions(table[j].1, Strip(token)) && !Mentions(table[j].1, Lower(Strip(token)))
    ensures Resolve(LookupOf(table), token) == None
  {
    LookupKeys(table, Strip(token));
    LookupKeys(table, Lower(Strip(token)));
  }

  /**
   * A canonical name listed among its own aliases, with no surrounding
   * whitespace and apart from every later group, resolves to itself.
   */
  lemma SelfNamedResolves(table: Table, i: nat)
    requires i < |table| && table[i].0 != [] && Trimmed(table[i].0) && table[i].0 in table[i].1
    requires ApartLater(table, i, table[i].0, 0)
    ensures Resolve(LookupOf(table), table[i].0) == Some(table[i].0)
  {
    StripOfTrimmed(table[i].0);
    ApartLaterUnmentioned(table, i, table[i].0, 0);
    ResolvesToGroup(table, i, table[i].0);
  }

  /** No group names `token`, neither as written nor lower-cased. */
  predicate Unnamed(table: Table, token: string) {
    forall j :: 0 <= j < |table| ==> !Mentions(table[j].1, token)
  }

  /** The `i`-th group names `alias`, and no later group is near it at its first position. */
  predicate NamedLast(table: Table, i: nat, alias: string) {
    i < |table| && alias in table[i].1 && ApartLater(table, i, alias, 0)
  }

  /** An upper-case character: one that lower-casing changes. */
  predicate IsUpper(c: char) {
    LowerChar(c) != c
  }

  /** No name of `names` begins with an upper-case character. */
  predicate LowerInitials(names: seq<string>)
    decreases |names|
  {
    names == [] || ((names[0] == [] || !IsUpper(names[0][0])) && LowerInitials(names[1..]))
  }

  /** No name of any group begins with an upper-case character. */
  predicate NoUpperInitials(table: Table) {
    forall j | 0 <= j < |table| :: LowerInitials(table[j].1)
  }

  lemma {:induction false} UpperInitialUnmentioned(names: seq<string>, token: string)
    requires LowerInitials(names) && token != [] && IsUpper(token[0])
    ensures !Mentions(names, token)
    decreases |names|
  {
    if names != [] {
      UpperInitialUnmentioned(names[1..], token);
      forall n | n in names ensures n != token && Lower(n) != token {
        if n != names[0] {
          assert n in names[1..];
        } else if n != [] {
          assert Lower(n)[0] == LowerChar(n[0]);
        }
      }
    }
  }

  /** A token beginning with an upper-case letter is named by no group of such a table. */
  lemma UpperInitialUnnamed(table: Table, token: string)
    requires NoUpperInitials(table) && token != [] && IsUpper(token[0])
    ensures Unnamed(table, token)
  {
    forall j | 0 <= j < |table| ensures !Mentions(table[j].1, token) {
      UpperInitialUnmentioned(table[j].1, token);
    }
  }

  /**
   * A trimmed token that no group names as written, but whose lower-cased
   * form the `i`-th group names last, resolves to that group's canonical
   * name: the case-insensitive path of the lookup.
   */
  lemma CaseFoldedResolves(table: Table, i: nat, token: string)
    requires token != [] && Trimmed(token) && Unnamed(table, token) && NamedLast(table, i, Lower(token))
    ensures Resolve(LookupOf(table), token) == Some(table[i].0)
  {
    StripOfTrimmed(token);
    ApartLaterUnmentioned(table, i, Lower(token), 0);
    ResolvesLoweredToGroup(table, i, token);
  }
}
