/**
 * get_autocomplete (scripts/functions.js): the county index with the
 * `suggestion_fips` table that `on_source` rewrites on every query, and the
 * state lookup of `on_select`.
 */
module Autocomplete {
  import opened Wrappers
  import opened Strings
  import opened JsText
  import opened GeoIndex
  import opened Intersect
  import opened FipsTable

  /** One entry of the menu, `{label: full_name, value: short_name}`: the full name shown and the short name filled in. */
  datatype Suggestion = Suggestion(fullName: string, shortName: string)

  /** How many suggestions `response` receives at most. */
  const MAX_SUGGESTIONS := 10

  /** `term.trim().toLowerCase()`. */
  function Query(term: string): string
  {
    Lower(Trim(term))
  }

  /** `s.substr(0, n)`: the first n characters, or all of a shorter string. */
  function Substr0(s: string, n: nat): (r: string)
    ensures |r| <= n && r <= s
    ensures |s| >= n ==> |r| == n
  {
    if n <= |s| then s[..n] else s
  }

  /** `index[part]` for every part, `undefined` (None) where the part is not indexed. */
  function Lookups(index: map<string, seq<string>>, parts: seq<string>): seq<Option<seq<string>>>
  {
    seq(|parts|, i requires 0 <= i < |parts| => if parts[i] in index then Some(index[parts[i]]) else None)
  }

  /** `intersect_lists(term_matches).sort()` for the query parts `parts`, or the TypeError thrown on the way. */
  function MatchedParts(index: map<string, seq<string>>, parts: seq<string>): Result<seq<string>, JsError>
  {
    match Intersection(Lookups(index, parts))
    case Err(e) => Err(e)
    case Ok(keys) => Ok(Sort(keys))
  }

  /** The keys matched by `term`, or the TypeError thrown on the way. */
  function Matched(index: map<string, seq<string>>, term: string): Result<seq<string>, JsError>
  {
    MatchedParts(index, Split(Query(term)))
  }

  /** Every key of `keys` has an entry in `m`. */
  predicate Named(m: map<string, string>, keys: seq<string>)
  {
    forall k :: k in keys ==> k in m
  }

  /** Every key listed in the index has a name and a full name. */
  predicate IndexNamed(index: map<string, seq<string>>, names: map<string, string>, fullnames: map<string, string>)
  {
    forall p, k :: p in index && k in index[p] ==> k in names && k in fullnames
  }

  /** The keys in order, each kept at its first occurrence only (the `seen_fips` check). */
  function Firsts(keys: seq<string>): (r: seq<string>)
    ensures forall k :: k in r <==> k in keys
  {
    if keys == [] then []
    else
      var init, last := keys[..|keys| - 1], keys[|keys| - 1];
      assert keys == init + [last];
      Firsts(init) + (if last in init then [] else [last])
  }

  /** The county's lower-cased full name starts with the whole query. */
  predicate IsFull(fullnames: map<string, string>, query: string, key: string)
  {
    key in fullnames && Substr0(Lower(fullnames[key]), |query|) == query
  }

  /** The keys whose full name starts with the query, in order (`suggestions1`). */
  function FullMatches(fullnames: map<string, string>, query: string, keys: seq<string>): (r: seq<string>)
    ensures forall k :: k in r <==> k in keys && IsFull(fullnames, query, k)
  {
    if keys == [] then []
    else
      var init, last := keys[..|keys| - 1], keys[|keys| - 1];
      assert keys == init + [last];
      FullMatches(fullnames, query, init) + (if IsFull(fullnames, query, last) then [last] else [])
  }

  /** The other keys, in order (`suggestions2`). */
  function OtherMatches(fullnames: map<string, string>, query: string, keys: seq<string>): (r: seq<string>)
    ensures forall k :: k in r <==> k in keys && !IsFull(fullnames, query, k)
  {
    if keys == [] then []
    else
      var init, last := keys[..|keys| - 1], keys[|keys| - 1];
      assert keys == init + [last];
      OtherMatches(fullnames, query, init) + (if IsFull(fullnames, query, last) then [] else [last])
  }

  /** The keys of the suggestions, full matches first, before the cut to ten. */
  function Ranked(fullnames: map<string, string>, query: string, matched: seq<string>): seq<string>
  {
    FullMatches(fullnames, query, Firsts(matched)) + OtherMatches(fullnames, query, Firsts(matched))
  }

  /** The suggestion `{label: full_name, value: short_name}` of each key. */
  function Labelled(names: map<string, string>, fullnames: map<string, string>, keys: seq<string>): seq<Suggestion>
    requires Named(names, keys) && Named(fullnames, keys)
  {
    seq(|keys|, i requires 0 <= i < |keys| => Suggestion(fullnames[keys[i]], names[keys[i]]))
  }

  /** `suggestion_fips`: each key filed under its full name, a later key overwriting an earlier one. */
  function FipsByLabel(fullnames: map<string, string>, keys: seq<string>): map<string, string>
    requires Named(fullnames, keys)
  {
    if keys == [] then map[]
    else
      var init, last := keys[..|keys| - 1], keys[|keys| - 1];
      assert forall k :: k in init ==> k in keys;
      FipsByLabel(fullnames, init)[fullnames[last] := last]
  }

  /** `suggestions1.concat(suggestions2).slice(0, 10)`. */
  function Suggestions(names: map<string, string>, fullnames: map<string, string>, query: string, matched: seq<string>): seq<Suggestion>
    requires Named(names, matched) && Named(fullnames, matched)
  {
    var all := Labelled(names, fullnames, Ranked(fullnames, query, matched));
    if |all| <= MAX_SUGGESTIONS then all else all[..MAX_SUGGESTIONS]
  }

  /** The keys `intersect_lists` returns all come from the index list of the first part. */
  lemma MatchedFromIndex(index: map<string, seq<string>>, parts: seq<string>, k: string)
    requires MatchedParts(index, parts).Ok? && k in MatchedParts(index, parts).value
    ensures exists p :: p in index && k in index[p]
  {
    var lists := Lookups(index, parts);
    var keys := Intersection(lists).value;
    assert k in multiset(Sort(keys));
    assert k in keys;
    IntersectionResult(lists);
    CommonMembers(lists[0].value, lists, |lists|, k);
  }

  /** Under an index whose keys are all named, every matched key has a name and a full name. */
  lemma MatchedNamed(index: map<string, seq<string>>, names: map<string, string>, fullnames: map<string, string>, term: string)
    requires IndexNamed(index, names, fullnames) && Matched(index, term).Ok?
    ensures Named(names, Matched(index, term).value) && Named(fullnames, Matched(index, term).value)
  {
    forall k | k in Matched(index, term).value ensures k in names && k in fullnames {
      MatchedFromIndex(index, Split(Query(term)), k);
    }
  }

  /** What on_source hands to `response`, or the TypeError it throws. */
  function Source(index: map<string, seq<string>>, names: map<string, string>, fullnames: map<string, string>, term: string)
    : Result<seq<Suggestion>, JsError>
    requires IndexNamed(index, names, fullnames)
  {
    match Matched(index, term)
    case Err(e) => Err(e)
    case Ok(keys) =>
      MatchedNamed(index, names, fullnames, term);
      Ok(Suggestions(names, fullnames, Query(term), keys))
  }

  /** on_source's loop over `term_parts`: one index list per part. */
  method LookupParts(index: map<string, seq<string>>, parts: seq<string>) returns (termMatches: seq<Option<seq<string>>>)
    ensures termMatches == Lookups(index, parts)
  {
    termMatches := [];
    var i := 0;
    while i < |parts|
      invariant i <= |parts|
      invariant termMatches == Lookups(index, parts[..i])
    {
      var partMatches := if parts[i] in index then Some(index[parts[i]]) else None;
      termMatches := termMatches + [partMatches];
      i := i + 1;
    }
    assert parts[..i] == parts;
  }

  /**
   * What on_source's loop has built once the keys `keys` (the first
   * occurrences so far) are handled: the two suggestion lists and the
   * full-name table.
   */
  predicate RankedSoFar(names: map<string, string>, fullnames: map<string, string>, query: string, keys: seq<string>,
                        suggestions1: seq<Suggestion>, suggestions2: seq<Suggestion>, suggestionFips: map<string, string>)
  {
    && Named(names, keys) && Named(fullnames, keys)
    && suggestions1 == Labelled(names, fullnames, FullMatches(fullnames, query, keys))
    && suggestions2 == Labelled(names, fullnames, OtherMatches(fullnames, query, keys))
    && suggestionFips == FipsByLabel(fullnames, keys)
  }

  /**
   * on_source's loop over `matched_fips`: a key already seen is skipped;
   * otherwise its suggestion goes to the first list when its full name
   * starts with the query and to the second list if not, and the key is
   * filed under its full name.
   */
  method RankMatches(names: map<string, string>, fullnames: map<string, string>, query: string, matched: seq<string>)
    returns (suggestions1: seq<Suggestion>, suggestions2: seq<Suggestion>, suggestionFips: map<string, string>)
    requires Named(names, matched) && Named(fullnames, matched)
    ensures RankedSoFar(names, fullnames, query, Firsts(matched), suggestions1, suggestions2, suggestionFips)
  {
    var seenFips: set<string> := {};
    suggestions1, suggestions2, suggestionFips := [], [], map[];
    var i := 0;
    while i < |matched|
      invariant i <= |matched|
      invariant forall k :: k in seenFips <==> k in matched[..i]
      invariant RankedSoFar(names, fullnames, query, Firsts(matched[..i]), suggestions1, suggestions2, suggestionFips)
    {
      seenFips, suggestions1, suggestions2, suggestionFips :=
        RankOne(names, fullnames, query, matched, i, seenFips, suggestions1, suggestions2, suggestionFips);
      i := i + 1;
    }
    assert matched[..i] == matched;
  }

  /** One turn of on_source's loop over `matched_fips`. */
  method RankOne(names: map<string, string>, fullnames: map<string, string>, query: string, matched: seq<string>, i: nat,
                 seenFips0: set<string>, suggestions10: seq<Suggestion>, suggestions20: seq<Suggestion>, suggestionFips0: map<string, string>)
    returns (seenFips: set<string>, suggestions1: seq<Suggestion>, suggestions2: seq<Suggestion>, suggestionFips: map<string, string>)
    requires i < |matched| && Named(names, matched) && Named(fullnames, matched)
    requires forall k :: k in seenFips0 <==> k in matched[..i]
    requires RankedSoFar(names, fullnames, query, Firsts(matched[..i]), suggestions10, suggestions20, suggestionFips0)
    ensures forall k :: k in seenFips <==> k in matched[..i + 1]
    ensures RankedSoFar(names, fullnames, query, Firsts(matched[..i + 1]), suggestions1, suggestions2, suggestionFips)
  {
    seenFips, suggestions1, suggestions2, suggestionFips := seenFips0, suggestions10, suggestions20, suggestionFips0;
    var fips := matched[i];
    var fullName, shortName := fullnames[fips], names[fips];
    PrefixStep(matched, i);
    if fips in seenFips {
      FirstsSeen(matched, i);
      return;
    }
    seenFips := seenFips + {fips};
    if Substr0(Lower(fullName), |query|) == query {
      suggestions1 := suggestions1 + [Suggestion(fullName, shortName)];
    } else {
      suggestions2 := suggestions2 + [Suggestion(fullName, shortName)];
    }
    suggestionFips := suggestionFips[fullName := fips];
    FirstsNew(matched, i);
    RankedSoFarStep(names, fullnames, query, Firsts(matched[..i]), fips, suggestions10, suggestions20, suggestionFips0);
  }

  /** Handling one more new key extends the lists and the table by that key's entries. */
  lemma RankedSoFarStep(names: map<string, string>, fullnames: map<string, string>, query: string, keys: seq<string>, key: string,
                        suggestions1: seq<Suggestion>, suggestions2: seq<Suggestion>, suggestionFips: map<string, string>)
    requires RankedSoFar(names, fullnames, query, keys, suggestions1, suggestions2, suggestionFips)
    requires key in names && key in fullnames
    ensures var full := IsFull(fullnames, query, key);
      var entry := Suggestion(fullnames[key], names[key]);
      RankedSoFar(names, fullnames, query, keys + [key],
                  if full then suggestions1 + [entry] else suggestions1,
                  if full then suggestions2 else suggestions2 + [entry],
                  suggestionFips[fullnames[key] := key])
  {
    RankStep(names, fullnames, query, keys, key);
    if IsFull(fullnames, query, key) {
      LabelledStep(names, fullnames, FullMatches(fullnames, query, keys), key);
    } else {
      LabelledStep(names, fullnames, OtherMatches(fullnames, query, keys), key);
    }
  }

  lemma PrefixStep(matched: seq<string>, i: nat)
    requires i < |matched|
    ensures forall k :: k in matched[..i + 1] <==> k in matched[..i] || k == matched[i]
  {
    assert matched[..i + 1] == matched[..i] + [matched[i]];
  }

  /** A key seen before leaves the first occurrences as they are. */
  lemma FirstsSeen(matched: seq<string>, i: nat)
    requires i < |matched| && matched[i] in matched[..i]
    ensures Firsts(matched[..i + 1]) == Firsts(matched[..i])
  {
    assert matched[..i + 1][..i] == matched[..i];
  }

  /** A key not seen before is appended to the first occurrences. */
  lemma FirstsNew(matched: seq<string>, i: nat)
    requires i < |matched| && matched[i] !in matched[..i]
    ensures Firsts(matched[..i + 1]) == Firsts(matched[..i]) + [matched[i]]
  {
    assert matched[..i + 1][..i] == matched[..i];
  }

  lemma RankStep(names: map<string, string>, fullnames: map<string, string>, query: string, keys: seq<string>, key: string)
    requires Named(names, keys) && Named(fullnames, keys) && key in names && key in fullnames
    ensures Named(names, keys + [key]) && Named(fullnames, keys + [key])
    ensures var full := IsFull(fullnames, query, key);
      && FullMatches(fullnames, query, keys + [key])
         == FullMatches(fullnames, query, keys) + (if full then [key] else [])
      && OtherMatches(fullnames, query, keys + [key])
         == OtherMatches(fullnames, query, keys) + (if full then [] else [key])
    ensures FipsByLabel(fullnames, keys + [key]) == FipsByLabel(fullnames, keys)[fullnames[key] := key]
  {
    assert (keys + [key])[..|keys|] == keys;
  }

  lemma LabelledStep(names: map<string, string>, fullnames: map<string, string>, keys: seq<string>, key: string)
    requires Named(names, keys) && Named(fullnames, keys) && key in names && key in fullnames
    ensures Named(names, keys + [key]) && Named(fullnames, keys + [key])
    ensures Labelled(names, fullnames, keys + [key]) == Labelled(names, fullnames, keys) + [Suggestion(fullnames[key], names[key])]
  {
  }

  lemma LabelledAppend(names: map<string, string>, fullnames: map<string, string>, a: seq<string>, b: seq<string>)
    requires Named(names, a + b) && Named(fullnames, a + b)
    ensures Named(names, a) && Named(fullnames, a) && Named(names, b) && Named(fullnames, b)
    ensures Labelled(names, fullnames, a + b) == Labelled(names, fullnames, a) + Labelled(names, fullnames, b)
  {
    assert forall k :: k in a ==> k in a + b;
    assert forall k :: k in b ==> k in a + b;
  }

  /** No key occurs twice. */
  predicate NoDuplicates(keys: seq<string>)
  {
    forall i, j :: 0 <= i < j < |keys| ==> keys[i] != keys[j]
  }

  lemma {:induction false} FirstsNoDuplicates(keys: seq<string>)
    ensures NoDuplicates(Firsts(keys))
  {
    if keys != [] {
      FirstsNoDuplicates(keys[..|keys| - 1]);
    }
  }

  lemma {:induction false} MatchesNoDuplicates(fullnames: map<string, string>, query: string, keys: seq<string>)
    requires NoDuplicates(keys)
    ensures NoDuplicates(FullMatches(fullnames, query, keys)) && NoDuplicates(OtherMatches(fullnames, query, keys))
  {
    if keys != [] {
      var init, last := keys[..|keys| - 1], keys[|keys| - 1];
      forall i | 0 <= i < |init| ensures init[i] != last {
        assert keys[i] != keys[|keys| - 1];
      }
      MatchesNoDuplicates(fullnames, query, init);
    }
  }

  /**
   * Each key is suggested at most once, and every matched key is among the
   * ranked keys, which hold nothing else.
   */
  lemma RankedKeys(fullnames: map<string, string>, query: string, matched: seq<string>)
    ensures NoDuplicates(Ranked(fullnames, query, matched))
    ensures forall k :: k in Ranked(fullnames, query, matched) <==> k in matched
  {
    var firsts := Firsts(matched);
    FirstsNoDuplicates(matched);
    MatchesNoDuplicates(fullnames, query, firsts);
    var full, other := FullMatches(fullnames, query, firsts), OtherMatches(fullnames, query, firsts);
    var ranked := full + other;
    forall i, j | 0 <= i < j < |ranked| ensures ranked[i] != ranked[j] {
      if i < |full| && |full| <= j {
        assert ranked[i] in full && ranked[j] in other;
      }
    }
  }

  /**
   * Ranking: the full-name matches take exactly the first places, so a
   * full-name match is never preceded by a key that is not one.
   */
  lemma RankedFullFirst(fullnames: map<string, string>, query: string, matched: seq<string>)
    ensures var ranked := Ranked(fullnames, query, matched);
      && (forall k :: 0 <= k < |ranked| ==>
            (IsFull(fullnames, query, ranked[k]) <==> k < |FullMatches(fullnames, query, Firsts(matched))|))
      && (forall i, j :: 0 <= i < j < |ranked| && IsFull(fullnames, query, ranked[j]) ==> IsFull(fullnames, query, ranked[i]))
  {
    var firsts := Firsts(matched);
    var full, other := FullMatches(fullnames, query, firsts), OtherMatches(fullnames, query, firsts);
    var ranked := full + other;
    forall k | 0 <= k < |ranked| ensures IsFull(fullnames, query, ranked[k]) <==> k < |full| {
      if k < |full| {
        assert ranked[k] == full[k] && full[k] in full;
      } else {
        assert ranked[k] == other[k - |full|] && other[k - |full|] in other;
      }
    }
  }

  lemma SnocStrictlySorted(keys: seq<string>, key: string)
    requires StrictlySorted(keys) && forall k :: k in keys ==> Less(k, key)
    ensures StrictlySorted(keys + [key])
  {
    var r := keys + [key];
    forall i, j | 0 <= i < j < |r| ensures Less(r[i], r[j]) {
      if j == |keys| {
        assert r[i] in keys;
      } else {
        assert r[i] == keys[i] && r[j] == keys[j];
      }
    }
  }

  lemma {:induction false} FirstsOfSorted(keys: seq<string>)
    requires Sorted(keys)
    ensures StrictlySorted(Firsts(keys))
  {
    if keys != [] {
      var init, last := keys[..|keys| - 1], keys[|keys| - 1];
      FirstsOfSorted(init);
      if last !in init {
        forall k | k in Firsts(init) ensures Less(k, last) {
          var i :| 0 <= i < |init| && init[i] == k;
          assert LessEq(keys[i], keys[|keys| - 1]);
        }
        SnocStrictlySorted(Firsts(init), last);
      }
    }
  }

  lemma {:induction false} MatchesSorted(fullnames: map<string, string>, query: string, keys: seq<string>)
    requires StrictlySorted(keys)
    ensures StrictlySorted(FullMatches(fullnames, query, keys)) && StrictlySorted(OtherMatches(fullnames, query, keys))
  {
    if keys != [] {
      var init, last := keys[..|keys| - 1], keys[|keys| - 1];
      assert StrictlySorted(init);
      MatchesSorted(fullnames, query, init);
      assert forall k :: k in init ==> Less(k, last) by {
        forall k | k in init ensures Less(k, last) {
          var i :| 0 <= i < |init| && init[i] == k;
          assert Less(keys[i], keys[|keys| - 1]);
        }
      }
      if IsFull(fullnames, query, last) {
        SnocStrictlySorted(FullMatches(fullnames, query, init), last);
      } else {
        SnocStrictlySorted(OtherMatches(fullnames, query, init), last);
      }
    }
  }

  /** Within each group the keys keep the ascending order of the sorted matches, without repeats. */
  lemma RankedGroupsSorted(fullnames: map<string, string>, query: string, matched: seq<string>)
    requires Sorted(matched)
    ensures StrictlySorted(FullMatches(fullnames, query, Firsts(matched)))
    ensures StrictlySorted(OtherMatches(fullnames, query, Firsts(matched)))
  {
    FirstsOfSorted(matched);
    MatchesSorted(fullnames, query, Firsts(matched));
  }

  /** At most ten suggestions, the i-th being that of the i-th ranked key. */
  lemma SuggestionsCut(names: map<string, string>, fullnames: map<string, string>, query: string, matched: seq<string>)
    requires Named(names, matched) && Named(fullnames, matched)
    ensures var ranked, shown := Ranked(fullnames, query, matched), Suggestions(names, fullnames, query, matched);
      && |shown| <= MAX_SUGGESTIONS
      && |shown| == (if |ranked| <= MAX_SUGGESTIONS then |ranked| else MAX_SUGGESTIONS)
      && forall i :: 0 <= i < |shown| ==> shown[i] == Suggestion(fullnames[ranked[i]], names[ranked[i]])
  {
  }

  /**
   * `suggestion_fips` files every key under its full name, and what it
   * files under a name is a key with that full name.
   */
  lemma {:induction false} FipsByLabelCovers(fullnames: map<string, string>, keys: seq<string>)
    requires Named(fullnames, keys)
    ensures forall k :: k in keys ==> fullnames[k] in FipsByLabel(fullnames, keys)
    ensures forall name :: name in FipsByLabel(fullnames, keys) ==>
      FipsByLabel(fullnames, keys)[name] in keys && fullnames[FipsByLabel(fullnames, keys)[name]] == name
  {
    if keys != [] {
      var init := keys[..|keys| - 1];
      assert keys == init + [keys[|keys| - 1]];
      assert Named(fullnames, init);
      FipsByLabelCovers(fullnames, init);
    }
  }

  /**
   * After a successful query, every matched full name can be selected,
   * including those cut from the ten suggestions shown.
   */
  lemma SelectableAfterSource(index: map<string, seq<string>>, names: map<string, string>, fullnames: map<string, string>, term: string, k: string)
    requires IndexNamed(index, names, fullnames) && Matched(index, term).Ok? && k in Matched(index, term).value
    ensures Named(fullnames, Firsts(Matched(index, term).value))
    ensures k in fullnames && fullnames[k] in FipsByLabel(fullnames, Firsts(Matched(index, term).value))
    ensures var key := FipsByLabel(fullnames, Firsts(Matched(index, term).value))[fullnames[k]];
      key in Matched(index, term).value && fullnames[key] == fullnames[k]
  {
    MatchedNamed(index, names, fullnames, term);
    FipsByLabelCovers(fullnames, Firsts(Matched(index, term).value));
  }

  lemma SortKeepsMembers(keys: seq<string>, k: string)
    ensures k in Sort(keys) <==> k in keys
  {
    assert k in Sort(keys) <==> k in multiset(Sort(keys));
    assert k in keys <==> k in multiset(keys);
  }

  /** A key is in the first list and in all the others exactly when every part's index list holds it. */
  lemma InEveryLookup(index: map<string, seq<string>>, parts: seq<string>, k: string)
    requires parts != [] && parts[0] in index
    ensures var lists := Lookups(index, parts);
      (k in lists[0].value && InAll(k, lists, |lists|))
        <==> forall i :: 0 <= i < |parts| ==> parts[i] in index && k in index[parts[i]]
  {
    var lists := Lookups(index, parts);
    if k in lists[0].value && InAll(k, lists, |lists|) {
      forall i | 0 <= i < |parts| ensures parts[i] in index && k in index[parts[i]] {
        if i > 0 {
          assert lists[i].Some? && k in lists[i].value;
        }
      }
    }
    if forall i :: 0 <= i < |parts| ==> parts[i] in index && k in index[parts[i]] {
      forall i | 1 <= i < |lists| ensures lists[i].Some? && k in lists[i].value {
        assert parts[i] in index && k in index[parts[i]];
      }
    }
  }

  /**
   * The matched keys: sorted, and exactly those listed in the index under
   * every part of the query.
   */
  lemma MatchedKeys(index: map<string, seq<string>>, parts: seq<string>, k: string)
    requires MatchedParts(index, parts).Ok?
    ensures Sorted(MatchedParts(index, parts).value)
    ensures k in MatchedParts(index, parts).value <==> forall i :: 0 <= i < |parts| ==> parts[i] in index && k in index[parts[i]]
  {
    var lists := Lookups(index, parts);
    var keys := Intersection(lists).value;
    SortKeepsMembers(keys, k);
    IntersectionResult(lists);
    CommonMembers(lists[0].value, lists, |lists|, k);
    InEveryLookup(index, parts, k);
  }

  /**
   * The lookup throws exactly when the first part is not indexed, or a
   * later one is not while some key is still common to the parts before
   * it; in particular it never throws when every part is indexed.
   */
  lemma MatchFails(index: map<string, seq<string>>, parts: seq<string>)
    requires parts != []
    ensures MatchedParts(index, parts).Err? <==> parts[0] !in index || exists k :: ThrowsAt(Lookups(index, parts), k)
    ensures (forall part :: part in parts ==> part in index) ==> MatchedParts(index, parts).Ok?
  {
    var lists := Lookups(index, parts);
    IntersectionResult(lists);
    if forall part :: part in parts ==> part in index {
      forall k ensures !ThrowsAt(lists, k) {
        if 0 <= k < |parts| {
          assert parts[k] in parts;
        }
      }
    }
  }

  /**
   * The object get_autocomplete builds: the indexed county names, and the
   * `suggestion_fips` table from the full names of the last query's matches
   * to their keys.
   */
  class Autocompleter {
    var index: map<string, seq<string>>
    var names: map<string, string>
    var fullnames: map<string, string>
    var suggestionFips: map<string, string>

    /** Every key in the index has a name and a full name. */
    predicate Valid()
      reads this
    {
      IndexNamed(index, names, fullnames)
    }

    /** get_autocomplete: the geographies indexed, and no suggestion yet. */
    constructor (states: seq<StateRow>, counties: seq<CountyRow>)
      ensures var stateNames := StateNames(states, |states|);
        && index == IndexAfter(stateNames, counties, |counties|)
        && names == Names(counties, |counties|)
        && fullnames == FullNames(stateNames, counties, |counties|)
      ensures suggestionFips == map[]
      ensures Valid()
    {
      var indexed := IndexGeographies(states, counties);
      index, names, fullnames := indexed.index, indexed.names, indexed.fullnames;
      suggestionFips := map[];
      new;
      IndexAfterNamed(StateNames(states, |states|), counties);
    }

    /**
     * on_source: the suggestions for `term`, full-name matches first, at
     * most ten; `suggestion_fips` is rewritten for every match, and left
     * as it was when the lookup throws.
     */
    method OnSource(term: string) returns (r: Result<seq<Suggestion>, JsError>)
      requires Valid()
      modifies this`suggestionFips
      ensures r == Source(index, names, fullnames, term)
      ensures Matched(index, term).Err? ==> suggestionFips == old(suggestionFips)
      ensures Matched(index, term).Ok? ==>
        && Named(fullnames, Matched(index, term).value)
        && suggestionFips == FipsByLabel(fullnames, Firsts(Matched(index, term).value))
    {
      var termQuery := Lower(Trim(term));
      var termParts := Split(termQuery);
      var termMatches := LookupParts(index, termParts);
      var intersected := IntersectLists(termMatches);
      if intersected.Err? {
        return Err(intersected.error);
      }
      var matchedFips := Sort(intersected.value);
      MatchedNamed(index, names, fullnames, term);
      var suggestions1, suggestions2, fipsByLabel := RankMatches(names, fullnames, termQuery, matchedFips);
      suggestionFips := fipsByLabel;
      LabelledAppend(names, fullnames, FullMatches(fullnames, termQuery, Firsts(matchedFips)),
                     OtherMatches(fullnames, termQuery, Firsts(matchedFips)));
      var all := suggestions1 + suggestions2;
      r := Ok(if |all| <= MAX_SUGGESTIONS then all else all[..MAX_SUGGESTIONS]);
    }

    /**
     * on_select's lookup: the key filed under the chosen label, and the
     * postal code of its first two characters: the one code of the table
     * that maps back to them, or none when no code does.
     */
    function OnSelect(chosen: string): (r: Result<Option<string>, JsError>)
      reads this
      ensures r.Err? <==> chosen !in suggestionFips
      ensures r.Ok? ==> forall code :: r.value == Some(code) <==> FipsOfPostalCode(code) == Some(Substr0(suggestionFips[chosen], 2))
    {
      if chosen !in suggestionFips then Err(TypeError)
      else
        var prefix := Substr0(suggestionFips[chosen], 2);
        PostalCodeIffFips(prefix);
        Ok(PostalCode(prefix))
    }
  }

  /** The index index_geographies builds names every key it lists. */
  lemma IndexAfterNamed(stateNames: map<string, string>, counties: seq<CountyRow>)
    ensures IndexNamed(IndexAfter(stateNames, counties, |counties|), Names(counties, |counties|),
                       FullNames(stateNames, counties, |counties|))
  {
    var index := IndexAfter(stateNames, counties, |counties|);
    forall p, k | p in index && k in index[p]
      ensures k in Names(counties, |counties|) && k in FullNames(stateNames, counties, |counties|)
    {
      assert Entry(index, p) == index[p];
      IndexKeysNamed(stateNames, counties, p, k);
    }
  }
}
