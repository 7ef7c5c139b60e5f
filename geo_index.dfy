/**
 * index_geographies (data-functions.js, copied verbatim into
 * scripts/functions.js): an inverted index from every prefix of every
 * name token to the FIPS keys of the counties carrying it.
 */
module GeoIndex {
  import opened Wrappers
  import opened JsText

  /** A row of `us_states`: [name, fips]. */
  datatype StateRow = StateRow(name: string, fips: string)

  /** A row of `us_counties`: [name, state fips, county code]. */
  datatype CountyRow = CountyRow(name: string, stateFips: string, code: string)

  /** What index_geographies returns: the prefix index, and the short and full name of each key. */
  datatype Indexed = Indexed(index: map<string, seq<string>>, names: map<string, string>, fullnames: map<string, string>)

  /** `state_names` once the state rows 1 to n - 1 are read; row 0 is the header. */
  function StateNames(states: seq<StateRow>, n: nat): map<string, string>
    requires n <= |states| || n <= 1
  {
    if n <= 1 then map[] else StateNames(states, n - 1)[states[n - 1].fips := states[n - 1].name]
  }

  /** `state_names[fips]` as concatenation prints it: "undefined" for an unknown fips. */
  function StateName(stateNames: map<string, string>, fips: string): string
  {
    if fips in stateNames then stateNames[fips] else "undefined"
  }

  /** A county's key: its state fips followed by its county code. */
  function Key(c: CountyRow): string
  {
    c.stateFips + c.code
  }

  /** "name, state name". */
  function FullName(c: CountyRow, stateNames: map<string, string>): string
  {
    c.name + ", " + StateName(stateNames, c.stateFips)
  }

  /** The lower-cased words of "name state name". */
  function Tokens(c: CountyRow, stateNames: map<string, string>): seq<string>
  {
    Split(Lower(c.name + " " + StateName(stateNames, c.stateFips)))
  }

  /** `p` is a non-empty prefix of `t`, as `t.substr(0, k)` for some k from 1 to `t.length`. */
  predicate IsPrefixOf(p: string, t: string)
  {
    0 < |p| <= |t| && t[..|p|] == p
  }

  /** How many of `tokens` have `p` as a non-empty prefix. */
  function Hits(tokens: seq<string>, p: string): nat
  {
    if tokens == [] then 0
    else Hits(tokens[..|tokens| - 1], p) + (if IsPrefixOf(p, tokens[|tokens| - 1]) then 1 else 0)
  }

  /** Whether `p` is one of the prefixes `t.substr(0, k')` with k' < k. */
  function Below(t: string, k: nat, p: string): nat
  {
    if 0 < |p| < k && |p| <= |t| && t[..|p|] == p then 1 else 0
  }

  /** `k` copies of `x`. */
  function Repeat(x: string, k: nat): (r: seq<string>)
    ensures |r| == k && forall i :: 0 <= i < k ==> r[i] == x
  {
    seq(k, _ => x)
  }

  lemma RepeatAdd(x: string, a: nat, b: nat)
    ensures Repeat(x, a + b) == Repeat(x, a) + Repeat(x, b)
  {
  }

  /**
   * The list `name_index[p]` once the county rows 1 to n - 1 are indexed:
   * for each county in turn, its key once per token that `p` is a prefix of.
   */
  function Postings(stateNames: map<string, string>, counties: seq<CountyRow>, n: nat, p: string): seq<string>
    requires n <= |counties| || n <= 1
  {
    if n <= 1 then []
    else Postings(stateNames, counties, n - 1, p)
         + Repeat(Key(counties[n - 1]), Hits(Tokens(counties[n - 1], stateNames), p))
  }

  /** `county_names` once the county rows 1 to n - 1 are read. */
  function Names(counties: seq<CountyRow>, n: nat): map<string, string>
    requires n <= |counties| || n <= 1
  {
    if n <= 1 then map[] else Names(counties, n - 1)[Key(counties[n - 1]) := counties[n - 1].name]
  }

  /** `county_fullnames` once the county rows 1 to n - 1 are read. */
  function FullNames(stateNames: map<string, string>, counties: seq<CountyRow>, n: nat): map<string, string>
    requires n <= |counties| || n <= 1
  {
    if n <= 1 then map[]
    else FullNames(stateNames, counties, n - 1)[Key(counties[n - 1]) := FullName(counties[n - 1], stateNames)]
  }

  /** `index[p]`, or no keys when `p` is not in the index. */
  function Entry(index: map<string, seq<string>>, p: string): seq<string>
  {
    if p in index then index[p] else []
  }

  /** `index[part].push(key)`, or `index[part] = [key]` when `part` is not yet indexed. */
  function Push(index: map<string, seq<string>>, part: string, key: string): map<string, seq<string>>
  {
    if part in index then index[part := index[part] + [key]] else index[part := [key]]
  }

  /** The index after `key` is pushed under `t.substr(0, k')` for k' from 1 to k - 1. */
  function AddPrefixes(index: map<string, seq<string>>, t: string, key: string, k: nat): map<string, seq<string>>
    requires k <= |t| + 1
  {
    if k <= 1 then index else Push(AddPrefixes(index, t, key, k - 1), t[..k - 1], key)
  }

  /** The index after every prefix of every token in `tokens`, in order, receives `key`. */
  function AddTokens(index: map<string, seq<string>>, tokens: seq<string>, key: string): map<string, seq<string>>
  {
    if tokens == [] then index
    else
      var last := tokens[|tokens| - 1];
      AddPrefixes(AddTokens(index, tokens[..|tokens| - 1], key), last, key, |last| + 1)
  }

  /** `name_index` once the county rows 1 to n - 1 are indexed. */
  function IndexAfter(stateNames: map<string, string>, counties: seq<CountyRow>, n: nat): map<string, seq<string>>
    requires n <= |counties| || n <= 1
  {
    if n <= 1 then map[]
    else AddTokens(IndexAfter(stateNames, counties, n - 1), Tokens(counties[n - 1], stateNames), Key(counties[n - 1]))
  }

  /** A county as the index sees it: its key and its tokens. */
  datatype Doc = Doc(key: string, tokens: seq<string>)

  /** `docs` holds the key and the tokens of each county row. */
  predicate DocsOf(stateNames: map<string, string>, counties: seq<CountyRow>, docs: seq<Doc>)
  {
    && |docs| == |counties|
    && forall j {:trigger Tokens(counties[j], stateNames)} :: 0 <= j < |counties| ==>
         docs[j] == Doc(Key(counties[j]), Tokens(counties[j], stateNames))
  }

  /** `IndexAfter` over precomputed keys and tokens. */
  function IndexFold(docs: seq<Doc>, n: nat): map<string, seq<string>>
    requires n <= |docs| || n <= 1
  {
    if n <= 1 then map[] else AddTokens(IndexFold(docs, n - 1), docs[n - 1].tokens, docs[n - 1].key)
  }

  lemma {:induction false} IndexFoldIsIndexAfter(stateNames: map<string, string>, counties: seq<CountyRow>, docs: seq<Doc>, n: nat)
    requires DocsOf(stateNames, counties, docs) && (n <= |counties| || n <= 1)
    ensures IndexFold(docs, n) == IndexAfter(stateNames, counties, n)
  {
    if n > 1 {
      IndexFoldIsIndexAfter(stateNames, counties, docs, n - 1);
      assert docs[n - 1].tokens == Tokens(counties[n - 1], stateNames);
    }
  }

  /** Every list of the index holds at least one key. */
  predicate NoEmptyLists(index: map<string, seq<string>>)
  {
    forall p :: p in index ==> index[p] != []
  }

  /** A push appends `key` to the list of `part` and leaves every other list alone. */
  lemma PushEntry(index: map<string, seq<string>>, part: string, key: string, p: string)
    ensures Entry(Push(index, part, key), p) == Entry(index, p) + (if p == part then [key] else [])
  {
  }

  lemma {:induction false} AddPrefixesEntry(index: map<string, seq<string>>, t: string, key: string, k: nat, p: string)
    requires k <= |t| + 1
    ensures Entry(AddPrefixes(index, t, key, k), p) == Entry(index, p) + Repeat(key, Below(t, k, p))
  {
    if k > 1 {
      AddPrefixesEntry(index, t, key, k - 1, p);
      PushEntry(AddPrefixes(index, t, key, k - 1), t[..k - 1], key, p);
      if p == t[..k - 1] {
        RepeatAdd(key, Below(t, k - 1, p), 1);
      } else {
        assert Below(t, k, p) == Below(t, k - 1, p);
      }
    }
  }

  lemma {:induction false} AddTokensEntry(index: map<string, seq<string>>, tokens: seq<string>, key: string, p: string)
    ensures Entry(AddTokens(index, tokens, key), p) == Entry(index, p) + Repeat(key, Hits(tokens, p))
  {
    if tokens != [] {
      var init, last := tokens[..|tokens| - 1], tokens[|tokens| - 1];
      AddTokensEntry(index, init, key, p);
      AddPrefixesEntry(AddTokens(index, init, key), last, key, |last| + 1, p);
      RepeatAdd(key, Hits(init, p), Below(last, |last| + 1, p));
    }
  }

  /** The built index agrees with the closed form `Postings` under every prefix. */
  lemma {:induction false} IndexAfterPostings(stateNames: map<string, string>, counties: seq<CountyRow>, n: nat, p: string)
    requires n <= |counties| || n <= 1
    ensures Entry(IndexAfter(stateNames, counties, n), p) == Postings(stateNames, counties, n, p)
  {
    if n > 1 {
      IndexAfterPostings(stateNames, counties, n - 1, p);
      AddTokensEntry(IndexAfter(stateNames, counties, n - 1), Tokens(counties[n - 1], stateNames), Key(counties[n - 1]), p);
    }
  }

  lemma {:induction false} AddPrefixesNoEmptyLists(index: map<string, seq<string>>, t: string, key: string, k: nat)
    requires k <= |t| + 1 && NoEmptyLists(index)
    ensures NoEmptyLists(AddPrefixes(index, t, key, k))
  {
    if k > 1 {
      AddPrefixesNoEmptyLists(index, t, key, k - 1);
    }
  }

  lemma {:induction false} AddTokensNoEmptyLists(index: map<string, seq<string>>, tokens: seq<string>, key: string)
    requires NoEmptyLists(index)
    ensures NoEmptyLists(AddTokens(index, tokens, key))
  {
    if tokens != [] {
      var last := tokens[|tokens| - 1];
      AddTokensNoEmptyLists(index, tokens[..|tokens| - 1], key);
      AddPrefixesNoEmptyLists(AddTokens(index, tokens[..|tokens| - 1], key), last, key, |last| + 1);
    }
  }

  /** No prefix is ever given an empty list. */
  lemma {:induction false} IndexAfterNoEmptyLists(stateNames: map<string, string>, counties: seq<CountyRow>, n: nat)
    requires n <= |counties| || n <= 1
    ensures NoEmptyLists(IndexAfter(stateNames, counties, n))
  {
    if n > 1 {
      IndexAfterNoEmptyLists(stateNames, counties, n - 1);
      AddTokensNoEmptyLists(IndexAfter(stateNames, counties, n - 1), Tokens(counties[n - 1], stateNames), Key(counties[n - 1]));
    }
  }

  lemma {:induction false} HitsPositive(tokens: seq<string>, p: string)
    ensures Hits(tokens, p) > 0 <==> exists j :: 0 <= j < |tokens| && IsPrefixOf(p, tokens[j])
  {
    if tokens != [] {
      var init := tokens[..|tokens| - 1];
      HitsPositive(init, p);
      if Hits(init, p) > 0 {
        var j :| 0 <= j < |init| && IsPrefixOf(p, init[j]);
        assert tokens[j] == init[j];
      }
      if exists j :: 0 <= j < |tokens| && IsPrefixOf(p, tokens[j]) {
        var j :| 0 <= j < |tokens| && IsPrefixOf(p, tokens[j]);
        if j < |init| {
          assert init[j] == tokens[j];
        }
      }
    }
  }

  lemma {:induction false} PostingsGrow(stateNames: map<string, string>, counties: seq<CountyRow>, m: nat, n: nat, p: string)
    requires m <= n && (n <= |counties| || n <= 1)
    ensures Postings(stateNames, counties, m, p) <= Postings(stateNames, counties, n, p)
  {
    if m < n && n > 1 {
      PostingsGrow(stateNames, counties, m, n - 1, p);
      var before := Postings(stateNames, counties, n - 1, p);
      assert before <= Postings(stateNames, counties, n, p);
    }
  }

  /** The postings after row m are those before it followed by row m's own. */
  lemma PostingsStep(stateNames: map<string, string>, counties: seq<CountyRow>, m: nat, p: string)
    requires 1 <= m < |counties|
    ensures Postings(stateNames, counties, m + 1, p)
         == Postings(stateNames, counties, m, p) + Repeat(Key(counties[m]), Hits(Tokens(counties[m], stateNames), p))
  {
  }

  /** A key once posted under `p` stays posted under `p`. */
  lemma PostingsKeep(stateNames: map<string, string>, counties: seq<CountyRow>, m: nat, n: nat, p: string, x: string)
    requires m <= n <= |counties|
    requires x in Postings(stateNames, counties, m, p)
    ensures x in Postings(stateNames, counties, n, p)
  {
    var s := Postings(stateNames, counties, m, p);
    var i :| 0 <= i < |s| && s[i] == x;
    PostingsGrow(stateNames, counties, m, n, p);
    assert Postings(stateNames, counties, n, p)[i] == x;
  }

  lemma PostingsHaveOwnCounty(stateNames: map<string, string>, counties: seq<CountyRow>, m: nat, p: string)
    requires 1 <= m < |counties|
    requires Hits(Tokens(counties[m], stateNames), p) > 0
    ensures Key(counties[m]) in Postings(stateNames, counties, m + 1, p)
  {
    var before := Postings(stateNames, counties, m, p);
    var added := Repeat(Key(counties[m]), Hits(Tokens(counties[m], stateNames), p));
    PostingsStep(stateNames, counties, m, p);
    assert added[0] == Key(counties[m]);
    assert (before + added)[|before|] == Key(counties[m]);
  }

  /**
   * Prefix coverage: every county row after the header is listed under
   * every prefix of every lower-cased token of its name and state name.
   */
  lemma IndexCovers(stateNames: map<string, string>, counties: seq<CountyRow>, m: nat, j: nat, k: nat)
    requires 1 <= m < |counties|
    requires j < |Tokens(counties[m], stateNames)| && 1 <= k <= |Tokens(counties[m], stateNames)[j]|
    ensures Key(counties[m]) in Entry(IndexAfter(stateNames, counties, |counties|), Tokens(counties[m], stateNames)[j][..k])
  {
    var tokens := Tokens(counties[m], stateNames);
    HitsOfPrefix(tokens, j, k);
    IndexHasHit(stateNames, counties, m, tokens[j][..k]);
  }

  /** A prefix of one of the tokens is a hit. */
  lemma HitsOfPrefix(tokens: seq<string>, j: nat, k: nat)
    requires j < |tokens| && 1 <= k <= |tokens[j]|
    ensures Hits(tokens, tokens[j][..k]) > 0
  {
    assert IsPrefixOf(tokens[j][..k], tokens[j]);
    HitsPositive(tokens, tokens[j][..k]);
  }

  /** A county with a token that `p` is a prefix of is listed under `p` in the finished index. */
  lemma IndexHasHit(stateNames: map<string, string>, counties: seq<CountyRow>, m: nat, p: string)
    requires 1 <= m < |counties|
    requires Hits(Tokens(counties[m], stateNames), p) > 0
    ensures Key(counties[m]) in Entry(IndexAfter(stateNames, counties, |counties|), p)
  {
    PostingsHaveOwnCounty(stateNames, counties, m, p);
    PostingsKeep(stateNames, counties, m + 1, |counties|, p, Key(counties[m]));
    IndexAfterPostings(stateNames, counties, |counties|, p);
  }

  lemma {:induction false} PostingSource(stateNames: map<string, string>, counties: seq<CountyRow>, n: nat, p: string, x: string)
    returns (m: nat, j: nat)
    requires n <= |counties| || n <= 1
    requires x in Postings(stateNames, counties, n, p)
    ensures 1 <= m < n && x == Key(counties[m])
    ensures j < |Tokens(counties[m], stateNames)| && IsPrefixOf(p, Tokens(counties[m], stateNames)[j])
  {
    if n <= 1 {
      assert false;
    }
    var before := Postings(stateNames, counties, n - 1, p);
    var tokens := Tokens(counties[n - 1], stateNames);
    var added := Repeat(Key(counties[n - 1]), Hits(tokens, p));
    assert Postings(stateNames, counties, n, p) == before + added;
    if x in before {
      m, j := PostingSource(stateNames, counties, n - 1, p, x);
    } else {
      assert x in added;
      m := n - 1;
      HitsPositive(tokens, p);
      j :| 0 <= j < |tokens| && IsPrefixOf(p, tokens[j]);
    }
  }

  /**
   * Soundness: a key listed under `p` is that of a county row after the
   * header one of whose tokens has `p` as a non-empty prefix.
   */
  lemma IndexSound(stateNames: map<string, string>, counties: seq<CountyRow>, p: string, x: string)
    returns (m: nat, j: nat)
    requires x in Entry(IndexAfter(stateNames, counties, |counties|), p)
    ensures 1 <= m < |counties| && x == Key(counties[m])
    ensures j < |Tokens(counties[m], stateNames)| && IsPrefixOf(p, Tokens(counties[m], stateNames)[j])
  {
    IndexAfterPostings(stateNames, counties, |counties|, p);
    m, j := PostingSource(stateNames, counties, |counties|, p, x);
  }

  /** Every index key is a non-empty prefix of some token of some county. */
  lemma IndexKeysArePrefixes(stateNames: map<string, string>, counties: seq<CountyRow>, p: string)
    returns (m: nat, j: nat)
    requires p in IndexAfter(stateNames, counties, |counties|)
    ensures 1 <= m < |counties| && j < |Tokens(counties[m], stateNames)| && IsPrefixOf(p, Tokens(counties[m], stateNames)[j])
  {
    var index := IndexAfter(stateNames, counties, |counties|);
    IndexAfterNoEmptyLists(stateNames, counties, |counties|);
    assert index[p][0] in Entry(index, p);
    m, j := IndexSound(stateNames, counties, p, index[p][0]);
  }

  /** The state names are keyed by the fips of the state rows after the header. */
  lemma {:induction false} StateNamesKeys(states: seq<StateRow>, n: nat)
    requires n <= |states| || n <= 1
    ensures StateNames(states, n).Keys == set i | 1 <= i < n :: states[i].fips
  {
    if n > 1 {
      StateNamesKeys(states, n - 1);
      assert (set i | 1 <= i < n :: states[i].fips) == (set i | 1 <= i < n - 1 :: states[i].fips) + {states[n - 1].fips};
    }
  }

  /** The names and the full names are keyed by the keys of the county rows after the header. */
  lemma {:induction false} NamesKeys(stateNames: map<string, string>, counties: seq<CountyRow>, n: nat)
    requires n <= |counties| || n <= 1
    ensures Names(counties, n).Keys == set m | 1 <= m < n :: Key(counties[m])
    ensures FullNames(stateNames, counties, n).Keys == Names(counties, n).Keys
  {
    if n > 1 {
      NamesKeys(stateNames, counties, n - 1);
      assert (set m | 1 <= m < n :: Key(counties[m])) == (set m | 1 <= m < n - 1 :: Key(counties[m])) + {Key(counties[n - 1])};
    }
  }

  /** A later row with the same key overwrites an earlier one: the last row's names win. */
  lemma {:induction false} NamesLastWins(stateNames: map<string, string>, counties: seq<CountyRow>, n: nat, m: nat)
    requires 1 <= m < n <= |counties|
    requires forall m' :: m < m' < n ==> Key(counties[m']) != Key(counties[m])
    ensures Key(counties[m]) in Names(counties, n) && Names(counties, n)[Key(counties[m])] == counties[m].name
    ensures Key(counties[m]) in FullNames(stateNames, counties, n)
    ensures FullNames(stateNames, counties, n)[Key(counties[m])] == FullName(counties[m], stateNames)
  {
    if m < n - 1 {
      NamesLastWins(stateNames, counties, n - 1, m);
    }
  }

  /** Every key in the index has a name and a full name. */
  lemma IndexKeysNamed(stateNames: map<string, string>, counties: seq<CountyRow>, p: string, x: string)
    requires x in Entry(IndexAfter(stateNames, counties, |counties|), p)
    ensures x in Names(counties, |counties|) && x in FullNames(stateNames, counties, |counties|)
  {
    var m, j := IndexSound(stateNames, counties, p, x);
    NamesKeys(stateNames, counties, |counties|);
  }

  /** Lists only grow by appending: the index after n rows extends, prefix by prefix, the index after fewer. */
  lemma IndexGrowsByAppending(stateNames: map<string, string>, counties: seq<CountyRow>, m: nat, n: nat, p: string)
    requires m <= n && (n <= |counties| || n <= 1)
    ensures Entry(IndexAfter(stateNames, counties, m), p) <= Entry(IndexAfter(stateNames, counties, n), p)
  {
    IndexAfterPostings(stateNames, counties, m, p);
    IndexAfterPostings(stateNames, counties, n, p);
    PostingsGrow(stateNames, counties, m, n, p);
  }

  /**
   * index_geographies: the index is the fold `IndexAfter` over every county
   * row after the header, the names and the full names are those of the
   * closed forms above.
   */
  method IndexGeographies(states: seq<StateRow>, counties: seq<CountyRow>) returns (r: Indexed)
    ensures var stateNames := StateNames(states, |states|);
      && r.index == IndexAfter(stateNames, counties, |counties|)
      && r.names == Names(counties, |counties|)
      && r.fullnames == FullNames(stateNames, counties, |counties|)
  {
    var stateNames := ReadStates(states);
    ghost var docs := seq(|counties|, j requires 0 <= j < |counties| => Doc(Key(counties[j]), Tokens(counties[j], stateNames)));
    var index, names, fullnames := IndexCounties(stateNames, counties, docs);
    IndexFoldIsIndexAfter(stateNames, counties, docs, |counties|);
    return Indexed(index, names, fullnames);
  }

  /**
   * index_geographies' county loop, over every county row after the header;
   * `docs` holds each county's key and tokens for the proof.
   */
  method IndexCounties(stateNames: map<string, string>, counties: seq<CountyRow>, ghost docs: seq<Doc>)
    returns (index: map<string, seq<string>>, names: map<string, string>, fullnames: map<string, string>)
    requires DocsOf(stateNames, counties, docs)
    ensures index == IndexFold(docs, |counties|)
    ensures names == Names(counties, |counties|) && fullnames == FullNames(stateNames, counties, |counties|)
  {
    index, names, fullnames := map[], map[], map[];
    if |counties| <= 1 {
      return;
    }
    var i := 1;
    while i < |counties|
      invariant 1 <= i <= |counties|
      invariant index == IndexFold(docs, i)
      invariant names == Names(counties, i) && fullnames == FullNames(stateNames, counties, i)
    {
      index, names, fullnames := IndexCounty(stateNames, counties, docs, i, index, names, fullnames);
      i := i + 1;
    }
  }

  /**
   * The body of index_geographies' county loop: the county's names are
   * recorded under its key, and its key is pushed under every prefix of
   * every token of its name and its state's name.
   */
  method IndexCounty(stateNames: map<string, string>, counties: seq<CountyRow>, ghost docs: seq<Doc>, i: nat,
                     index0: map<string, seq<string>>, names0: map<string, string>, fullnames0: map<string, string>)
    returns (index: map<string, seq<string>>, names: map<string, string>, fullnames: map<string, string>)
    requires 1 <= i < |counties| && DocsOf(stateNames, counties, docs)
    requires index0 == IndexFold(docs, i)
    requires names0 == Names(counties, i) && fullnames0 == FullNames(stateNames, counties, i)
    ensures index == IndexFold(docs, i + 1)
    ensures names == Names(counties, i + 1) && fullnames == FullNames(stateNames, counties, i + 1)
  {
    var c := counties[i];
    var stateName := StateName(stateNames, c.stateFips);
    var key := c.stateFips + c.code;
    names := names0[key := c.name];
    fullnames := fullnames0[key := c.name + ", " + stateName];
    var tokens := Split(Lower(c.name + " " + stateName));
    assert tokens == Tokens(counties[i], stateNames);
    index := IndexTokens(index0, tokens, key);
  }

  /** index_geographies' state loop: `state_names` maps each fips to its state's name. */
  method ReadStates(states: seq<StateRow>) returns (stateNames: map<string, string>)
    ensures stateNames == StateNames(states, |states|)
  {
    stateNames := map[];
    var i := 1;
    while i < |states|
      invariant i == 1 || 1 <= i <= |states|
      invariant stateNames == StateNames(states, i)
    {
      stateNames := stateNames[states[i].fips := states[i].name];
      i := i + 1;
    }
  }

  /** The loop over a county's tokens in index_geographies: each token's prefixes are indexed in turn. */
  method IndexTokens(index0: map<string, seq<string>>, tokens: seq<string>, key: string)
    returns (index: map<string, seq<string>>)
    ensures index == AddTokens(index0, tokens, key)
  {
    index := index0;
    var j := 0;
    while j < |tokens|
      invariant j <= |tokens|
      invariant index == AddTokens(index0, tokens[..j], key)
    {
      assert tokens[..j + 1][..j] == tokens[..j];
      index := IndexPrefixes(index, tokens[j], key);
      j := j + 1;
    }
    assert tokens[..j] == tokens;
  }

  /**
   * The innermost loop of index_geographies: `key` is pushed onto the list
   * of each prefix `t.substr(0, k)`, k from 1 to `t.length`, a new list
   * being made for a prefix not yet indexed.
   */
  method IndexPrefixes(index0: map<string, seq<string>>, t: string, key: string)
    returns (index: map<string, seq<string>>)
    ensures index == AddPrefixes(index0, t, key, |t| + 1)
  {
    index := index0;
    var k := 1;
    while k <= |t|
      invariant 1 <= k <= |t| + 1
      invariant index == AddPrefixes(index0, t, key, k)
    {
      var part := t[..k];
      if part in index {
        index := index[part := index[part] + [key]];
      } else {
        index := index[part := [key]];
      }
      k := k + 1;
    }
  }
}
