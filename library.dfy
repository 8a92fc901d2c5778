/** The library page's search: poems whose title, author or some verse line contains the query,
    in dataset order, at most twenty of them. */
module Library {
  import opened Poems

  /** The display cap on search results. */
  const MaxResults: nat := 20

  /** `s.includes(q)`: q occurs in s at some position. A string includes each of its prefixes,
      the empty query among them, and includes nothing longer than itself. */
  predicate Includes(s: string, q: string): (b: bool)
    ensures b ==> |q| <= |s|
    ensures q <= s ==> b
  {
    assert q <= s ==> OccursAt(s, q, 0);
    exists i :: 0 <= i <= |s| && OccursAt(s, q, i)
  }

  /** q occurs in s starting at position i. */
  predicate OccursAt(s: string, q: string, i: nat)
  {
    i + |q| <= |s| && s[i..i + |q|] == q
  }

  /** The filter's test on one poem: the query occurs in the title, the author or some line.
      A query that opens the title or the author matches (the empty query matches every poem),
      and a matching query is no longer than the field it occurs in. */
  predicate Matches(p: Poem, q: string): (b: bool)
    ensures q <= p.title || q <= p.author ==> b
    ensures b ==> |q| <= |p.title| || |q| <= |p.author|
                  || exists k :: 0 <= k < |p.lines| && |q| <= |p.lines[k]|
  {
    Includes(p.title, q) || Includes(p.author, q)
    || exists k :: 0 <= k < |p.lines| && Includes(p.lines[k], q)
  }

  /** `POEMS.filter(...)`: the matching poems, in dataset order. */
  function Filter(poems: seq<Poem>, q: string): (r: seq<Poem>)
    ensures |r| <= |poems|
    ensures forall k :: 0 <= k < |r| ==> Matches(r[k], q) && r[k] in poems
  {
    if |poems| == 0 then []
    else if Matches(poems[0], q) then [poems[0]] + Filter(poems[1..], q)
    else Filter(poems[1..], q)
  }

  /** Every matching poem of the dataset is kept. */
  lemma {:induction false} FilterKeepsMatches(poems: seq<Poem>, q: string, i: nat)
    requires i < |poems| && Matches(poems[i], q)
    ensures poems[i] in Filter(poems, q)
  {
    if i > 0 {
      FilterKeepsMatches(poems[1..], q, i - 1);
    }
  }

  /** Filtering keeps dataset order: filtering a concatenation concatenates the filtered parts. */
  lemma {:induction false} FilterAppend(a: seq<Poem>, b: seq<Poem>, q: string)
    ensures Filter(a + b, q) == Filter(a, q) + Filter(b, q)
  {
    if |a| > 0 {
      assert (a + b)[1..] == a[1..] + b;
      FilterAppend(a[1..], b, q);
    } else {
      assert a + b == b;
    }
  }

  /** A filter that rejects nothing returns the dataset unchanged. */
  lemma {:induction false} FilterAllMatch(poems: seq<Poem>, q: string)
    requires forall k :: 0 <= k < |poems| ==> Matches(poems[k], q)
    ensures Filter(poems, q) == poems
  {
    if |poems| > 0 {
      FilterAllMatch(poems[1..], q);
    }
  }

  /** `filteredPoems`: the filter cut to its first twenty results. */
  function Search(poems: seq<Poem>, q: string): (r: seq<Poem>)
    ensures |r| <= MaxResults && |r| <= |poems|
    ensures r <= Filter(poems, q)
    ensures |r| < MaxResults ==> r == Filter(poems, q)
  {
    var f := Filter(poems, q);
    if |f| <= MaxResults then f else f[..MaxResults]
  }

  /** Every result matches the query and comes from the dataset. */
  lemma SearchResultsMatch(poems: seq<Poem>, q: string)
    ensures forall k :: 0 <= k < |Search(poems, q)| ==>
              Matches(Search(poems, q)[k], q) && Search(poems, q)[k] in poems
  {
  }

  /** The results are the first matches in dataset order: the matches among any leading part
      of the dataset that holds at most twenty of them open the result, in the same order. */
  lemma SearchKeepsLeadingMatches(a: seq<Poem>, b: seq<Poem>, q: string)
    requires |Filter(a, q)| <= MaxResults
    ensures Filter(a, q) <= Search(a + b, q)
  {
    FilterAppend(a, b, q);
  }

  /** The empty query matches every poem, so the result is the first min(20, N) poems. */
  lemma EmptyQueryShowsFirstPoems(poems: seq<Poem>)
    ensures Search(poems, "") == poems[..if |poems| <= MaxResults then |poems| else MaxResults]
  {
    FilterAllMatch(poems, "");
  }

  /** The loaded count `filteredPoems.length` shown beside the dataset size. */
  function LoadedCount(poems: seq<Poem>, q: string): (n: nat)
    ensures n <= |poems| && n <= MaxResults
  {
    |Search(poems, q)|
  }

  /** The "not found" message is shown exactly when no poem of the dataset matches. */
  lemma NotFoundIffNoMatch(poems: seq<Poem>, q: string)
    ensures LoadedCount(poems, q) == 0 <==> forall i :: 0 <= i < |poems| ==> !Matches(poems[i], q)
  {
    if exists i :: 0 <= i < |poems| && Matches(poems[i], q) {
      var i :| 0 <= i < |poems| && Matches(poems[i], q);
      FilterKeepsMatches(poems, q, i);
    }
  }
}
