/** The passport search box (SearchBar.jsx): a trimmed id is searched, the
    list of the five most recent searches is kept (newest first, no repeats)
    and saved in the browser's storage, and the browser goes to the passport
    page. */
module SearchBar {
  import opened Wrappers

  /** The storage item the list is saved under, and its length bound. */
  const StorageKey := "blocktrace_recent_queries"
  const MaxRecent := 5

  // ----------------------------------------------------------------- trimming

  /** The characters `String.prototype.trim` removes: the ECMAScript
      WhiteSpace and LineTerminator code points. */
  predicate IsWhitespace(c: char)
  {
    || '\U{9}' <= c <= '\U{D}' || c == ' ' || c == '\U{A0}' || c == '\U{1680}'
    || '\U{2000}' <= c <= '\U{200A}' || c == '\U{2028}' || c == '\U{2029}'
    || c == '\U{202F}' || c == '\U{205F}' || c == '\U{3000}' || c == '\U{FEFF}'
  }

  predicate AllWhitespace(s: string)
  {
    forall i :: 0 <= i < |s| ==> IsWhitespace(s[i])
  }

  /** `s` without its leading whitespace: a suffix of `s`, everything cut off
      is whitespace, and it does not start with whitespace. */
  function TrimStart(s: string): (t: string)
    ensures |t| <= |s| && t == s[|s| - |t|..]
    ensures AllWhitespace(s[..|s| - |t|])
    ensures |t| > 0 ==> !IsWhitespace(t[0])
    decreases |s|
  {
    if |s| > 0 && IsWhitespace(s[0]) then TrimStart(s[1..]) else s
  }

  /** `s` without its trailing whitespace: a prefix of `s`, everything cut off
      is whitespace, and it does not end with whitespace. */
  function TrimEnd(s: string): (t: string)
    ensures |t| <= |s| && t == s[..|t|]
    ensures AllWhitespace(s[|t|..])
    ensures |t| > 0 ==> !IsWhitespace(t[|t| - 1])
    decreases |s|
  {
    if |s| > 0 && IsWhitespace(s[|s| - 1]) then TrimEnd(s[..|s| - 1]) else s
  }

  /** `String.prototype.trim`. */
  function Trim(s: string): string
  {
    TrimEnd(TrimStart(s))
  }

  /** Trimming leaves nothing exactly when the input is all whitespace. */
  lemma TrimEmptyIffWhitespace(s: string)
    ensures Trim(s) == "" <==> AllWhitespace(s)
  {
    var u := TrimStart(s);
    var t := TrimEnd(u);
    assert s == s[..|s| - |u|] + u;
    if t == "" {
      assert u == "" by {
        assert AllWhitespace(u[|t|..]) && u[|t|..] == u;
      }
      forall i | 0 <= i < |s|
        ensures IsWhitespace(s[i])
      {
        assert s[i] == s[..|s| - |u|][i];
      }
    } else {
      assert t[0] == u[0] == s[|s| - |u|];
    }
  }

  /** The trimmed text neither starts nor ends with whitespace and is a part
      of the input. */
  lemma TrimEnds(s: string)
    ensures var t := Trim(s);
            && |t| <= |s|
            && (|t| > 0 ==> !IsWhitespace(t[0]) && !IsWhitespace(t[|t| - 1]))
            && t == s[|s| - |TrimStart(s)|..][..|t|]
  {
    var u := TrimStart(s);
    var t := TrimEnd(u);
    if |t| > 0 {
      assert t[0] == u[0];
    }
  }

  /** Trimming twice is trimming once. */
  lemma TrimIdempotent(s: string)
    ensures Trim(Trim(s)) == Trim(s)
  {
    var t := Trim(s);
    assert TrimStart(t) == t;
    assert TrimEnd(t) == t by {
      if |t| > 0 {
        assert !IsWhitespace(t[|t| - 1]);
      }
    }
  }

  // ------------------------------------------------------- the recent list

  predicate NoDuplicates(qs: seq<string>)
  {
    forall i, j :: 0 <= i < j < |qs| ==> qs[i] != qs[j]
  }

  /** `qs.filter((q) => q !== id)`: the queries other than `id`, in order. */
  function Without(qs: seq<string>, id: string): (r: seq<string>)
    ensures |r| <= |qs|
    ensures forall q :: q in r <==> q in qs && q != id
  {
    if qs == [] then []
    else if qs[0] == id then Without(qs[1..], id)
    else [qs[0]] + Without(qs[1..], id)
  }

  /** Filtering distributes over concatenation, so it keeps the relative
      order of what it keeps. */
  lemma {:induction false} WithoutAppend(a: seq<string>, b: seq<string>, id: string)
    ensures Without(a + b, id) == Without(a, id) + Without(b, id)
    decreases |a|
  {
    if a == [] {
      assert a + b == b;
    } else {
      assert (a + b)[1..] == a[1..] + b;
      WithoutAppend(a[1..], b, id);
    }
  }

  /** Filtering out an absent query changes nothing. */
  lemma {:induction false} WithoutAbsent(qs: seq<string>, id: string)
    requires id !in qs
    ensures Without(qs, id) == qs
    decreases |qs|
  {
    if qs != [] {
      assert qs[0] != id;
      WithoutAbsent(qs[1..], id);
      assert qs == [qs[0]] + qs[1..];
    }
  }

  /** Filtering keeps a list free of duplicates. */
  lemma {:induction false} WithoutNoDuplicates(qs: seq<string>, id: string)
    requires NoDuplicates(qs)
    ensures NoDuplicates(Without(qs, id))
    decreases |qs|
  {
    if qs != [] {
      assert NoDuplicates(qs[1..]) by {
        forall i, j | 0 <= i < j < |qs[1..]|
          ensures qs[1..][i] != qs[1..][j]
        {
          assert qs[1..][i] == qs[i + 1] && qs[1..][j] == qs[j + 1];
        }
      }
      WithoutNoDuplicates(qs[1..], id);
      var rest := Without(qs[1..], id);
      if qs[0] != id {
        assert qs[0] !in qs[1..] by {
          forall k | 0 <= k < |qs[1..]|
            ensures qs[1..][k] != qs[0]
          {
            assert qs[1..][k] == qs[k + 1];
          }
        }
        var r := [qs[0]] + rest;
        forall i, j | 0 <= i < j < |r|
          ensures r[i] != r[j]
        {
          if i == 0 {
            assert r[j] == rest[j - 1];
          } else {
            assert r[i] == rest[i - 1] && r[j] == rest[j - 1];
          }
        }
      }
    }
  }

  function Min(a: int, b: int): int { if a <= b then a else b }

  /** `[id, ...qs.filter((q) => q !== id)].slice(0, 5)`: `id` first and only
      once, then the other queries in their previous order, of which only the
      oldest are dropped to keep five. */
  function RecentAfter(qs: seq<string>, id: string): (r: seq<string>)
    ensures |r| == Min(MaxRecent, 1 + |Without(qs, id)|)
    ensures r[0] == id
    ensures forall i :: 1 <= i < |r| ==> r[i] != id
    ensures r[1..] == Without(qs, id)[..|r| - 1]
    ensures forall q :: q in r ==> q == id || q in qs
  {
    var others := Without(qs, id);
    var r := ([id] + others)[..Min(MaxRecent, 1 + |others|)];
    assert forall i :: 1 <= i < |r| ==> r[i] == others[i - 1] && others[i - 1] in others;
    r
  }

  /** The recent list never holds a query twice, once it does not before. */
  lemma RecentAfterNoDuplicates(qs: seq<string>, id: string)
    requires NoDuplicates(qs)
    ensures NoDuplicates(RecentAfter(qs, id))
  {
    WithoutNoDuplicates(qs, id);
    var r := RecentAfter(qs, id);
    var others := Without(qs, id);
    forall i, j | 0 <= i < j < |r|
      ensures r[i] != r[j]
    {
      if i > 0 {
        assert r[i] == r[1..][i - 1] == others[i - 1];
        assert r[j] == r[1..][j - 1] == others[j - 1];
      }
    }
  }

  /** Searching the newest query again leaves a short duplicate-free list as it is. */
  lemma SearchHeadAgain(qs: seq<string>)
    requires 0 < |qs| <= MaxRecent && NoDuplicates(qs)
    ensures RecentAfter(qs, qs[0]) == qs
  {
    var id := qs[0];
    assert id !in qs[1..] by {
      forall k | 0 <= k < |qs[1..]|
        ensures qs[1..][k] != id
      {
        assert qs[1..][k] == qs[k + 1];
      }
    }
    calc {
      Without(qs, id);
      { assert qs == [id] + qs[1..]; }
      Without(qs[1..], id);
      { WithoutAbsent(qs[1..], id); }
      qs[1..];
    }
    var r := RecentAfter(qs, id);
    assert |r| == |qs|;
    assert r == [r[0]] + r[1..];
  }

  // ------------------------------------------------------------ the component

  /** The component's state: the text in the box, the recent list, the saved
      storage item (`None` once removed) and the pages navigated to. */
  class SearchBar {
    var dppId: string
    var recent: seq<string>
    var saved: Option<seq<string>>
    var navigations: seq<string>

    /** The saved item and the list agree: a reload shows the same list. */
    predicate Persisted()
      reads this
    {
      saved == Some(recent) || (saved.None? && recent == [])
    }

    /** Mounting: the saved list, if there is one, becomes the recent list. */
    constructor(stored: Option<seq<string>>)
      ensures dppId == "" && navigations == [] && saved == stored
      ensures recent == if stored.Some? then stored.value else []
      ensures Persisted()
    {
      dppId := "";
      saved := stored;
      navigations := [];
      recent := if stored.Some? then stored.value else [];
    }

    /** The box's change handler. */
    method SetDppId(text: string)
      modifies this
      ensures dppId == text
      ensures recent == old(recent) && saved == old(saved) && navigations == old(navigations)
    {
      dppId := text;
    }

    /** searchDpp: moves `id` to the front of the recent list, saves the list
      and goes to the passport page of `id`. */
    method SearchDpp(id: string)
      modifies this
      ensures recent == RecentAfter(old(recent), id)
      ensures saved == Some(recent) && Persisted()
      ensures navigations == old(navigations) + ["/passport/" + id]
      ensures dppId == old(dppId)
    {
      var updated := RecentAfter(recent, id);
      recent := updated;
      saved := Some(updated);
      navigations := navigations + ["/passport/" + id];
    }

    /** handleSubmit: nothing for an all-whitespace box; otherwise the trimmed
      text is searched. The box keeps its text. */
    method HandleSubmit()
      modifies this
      ensures AllWhitespace(old(dppId)) ==>
                recent == old(recent) && saved == old(saved) && navigations == old(navigations)
      ensures !AllWhitespace(old(dppId)) ==>
                && recent == RecentAfter(old(recent), Trim(old(dppId)))
                && saved == Some(recent)
                && navigations == old(navigations) + ["/passport/" + Trim(old(dppId))]
      ensures dppId == old(dppId)
      ensures old(Persisted()) ==> Persisted()
    {
      var id := Trim(dppId);
      if id != "" {
        SearchDpp(id);
      }
    }

    /** clearRecentQueries: empties the list and removes the saved item. */
    method ClearRecentQueries()
      modifies this
      ensures recent == [] && saved.None? && Persisted()
      ensures dppId == old(dppId) && navigations == old(navigations)
    {
      recent := [];
      saved := None;
    }
  }
}
