/** The search views: the module list restricted to the team of the current
    view and to titles or categories containing the search text, and the
    journal posts whose titles or category contain it. Matching is
    case-insensitive, by lower-casing both sides. */
module Filters {
  import opened Types
  import opened Text

  /** `Array.prototype.filter`: the elements satisfying p, in order. */
  function Filter<T>(s: seq<T>, p: T -> bool): (r: seq<T>)
    ensures |r| <= |s|
    ensures forall k :: 0 <= k < |r| ==> r[k] in s && p(r[k])
    ensures forall k :: 0 <= k < |s| && p(s[k]) ==> s[k] in r
  {
    if |s| == 0 then []
    else
      var rest := Filter(s[1..], p);
      assert s == [s[0]] + s[1..];
      if p(s[0]) then [s[0]] + rest else rest
  }

  /** The kept elements are drawn from the list, each at most as often as it
      occurs there. */
  lemma {:induction false} FilterSubMultiset<T>(s: seq<T>, p: T -> bool)
    ensures multiset(Filter(s, p)) <= multiset(s)
  {
    if |s| > 0 {
      FilterSubMultiset(s[1..], p);
      assert s == [s[0]] + s[1..];
    }
  }

  /** a can be obtained from b by deleting elements: its elements occur in b
      in the same order. */
  predicate SubsequenceOf<T(==)>(a: seq<T>, b: seq<T>)
    decreases |b|
  {
    |a| == 0 || (|b| > 0 && ((a[0] == b[0] && SubsequenceOf(a[1..], b[1..])) || SubsequenceOf(a, b[1..])))
  }

  /** Filtering keeps the kept elements in their original order. */
  lemma {:induction false} FilterIsSubsequence<T>(s: seq<T>, p: T -> bool)
    ensures SubsequenceOf(Filter(s, p), s)
  {
    if |s| > 0 {
      FilterIsSubsequence(s[1..], p);
      var rest := Filter(s[1..], p);
      if p(s[0]) {
        assert Filter(s, p) == [s[0]] + rest;
        assert Filter(s, p)[1..] == rest;
      }
    }
  }

  /** Filtering a concatenation filters each part. */
  lemma {:induction false} FilterAppend<T>(a: seq<T>, b: seq<T>, p: T -> bool)
    ensures Filter(a + b, p) == Filter(a, p) + Filter(b, p)
  {
    if |a| == 0 {
      assert a + b == b;
    } else {
      var ab := a + b;
      assert ab[0] == a[0];
      assert ab[1..] == a[1..] + b;
      FilterAppend(a[1..], b, p);
      var head := if p(a[0]) then [a[0]] else [];
      assert Filter(ab, p) == head + (Filter(a[1..], p) + Filter(b, p));
      assert Filter(a, p) == head + Filter(a[1..], p);
    }
  }

  /** Only the predicate's values on the list's own elements matter. */
  lemma {:induction false} FilterAgree<T>(s: seq<T>, p: T -> bool, q: T -> bool)
    requires forall k :: 0 <= k < |s| ==> p(s[k]) == q(s[k])
    ensures Filter(s, p) == Filter(s, q)
  {
    if |s| > 0 {
      FilterAgree(s[1..], p, q);
    }
  }

  /** A predicate every element satisfies keeps the whole list. */
  lemma FilterKeepsAll<T>(s: seq<T>, p: T -> bool)
    requires forall k :: 0 <= k < |s| ==> p(s[k])
    ensures Filter(s, p) == s
  {
    FilterAgree(s, p, _ => true);
    FilterAllTrue(s);
  }

  lemma {:induction false} FilterAllTrue<T>(s: seq<T>)
    ensures Filter(s, _ => true) == s
  {
    if |s| > 0 {
      FilterAllTrue(s[1..]);
      assert s == [s[0]] + s[1..];
    }
  }

  /** Filtering twice by the same predicate changes nothing more. */
  lemma FilterIdempotent<T>(s: seq<T>, p: T -> bool)
    ensures Filter(Filter(s, p), p) == Filter(s, p)
  {
    FilterKeepsAll(Filter(s, p), p);
  }

  /** Complementary predicates split a list: the two results together have
      as many elements as the list. */
  lemma {:induction false} FilterSplit<T>(s: seq<T>, p: T -> bool, q: T -> bool)
    requires forall k :: 0 <= k < |s| ==> (p(s[k]) <==> !q(s[k]))
    ensures |Filter(s, p)| + |Filter(s, q)| == |s|
  {
    if |s| > 0 {
      FilterSplit(s[1..], p, q);
    }
  }

  /** The team listed by a view: 'Red Team' on the red-team view and
      'Blue Team' on every other view. */
  function ViewTeam(view: AppView): (t: TeamType)
    ensures t == RedTeam <==> view == RedTeamView
  {
    if view == RedTeamView then RedTeam else BlueTeam
  }

  /** Case-insensitive `text.includes(search)`. */
  predicate Mentions(text: string, search: string) {
    Contains(Lower(text), Lower(search))
  }

  /** The empty search text is contained in everything. */
  lemma MentionsEmpty(text: string)
    ensures Mentions(text, "")
  {
    EmptyIsEverywhere(Lower(text));
  }

  lemma LowerAppend(a: string, b: string)
    ensures Lower(a + b) == Lower(a) + Lower(b)
  {
  }

  /** A text containing a longer search text contains every prefix of it. */
  lemma MentionsPrefix(text: string, search: string, more: string)
    requires Mentions(text, search + more)
    ensures Mentions(text, search)
  {
    var t := Lower(text);
    var s := Lower(search);
    LowerAppend(search, more);
    var sub := s + Lower(more);
    var i :| 0 <= i <= |t| - |sub| && OccursAt(t, sub, i);
    assert t[i..i + |s|] == sub[..|s|];
    assert OccursAt(t, s, i);
  }

  predicate ModuleMatches(m: Module, view: AppView, search: string) {
    m.team == ViewTeam(view) && (Mentions(m.title, search) || Mentions(m.category, search))
  }

  /** `filteredModules`. */
  function FilteredModules(ms: seq<Module>, view: AppView, search: string): (r: seq<Module>)
    ensures forall m :: m in r <==>
              (m in ms && m.team == ViewTeam(view) && (Mentions(m.title, search) || Mentions(m.category, search)))
    ensures |r| <= |ms|
    ensures SubsequenceOf(r, ms)
  {
    FilterIsSubsequence(ms, (m: Module) => ModuleMatches(m, view, search));
    Filter(ms, m => ModuleMatches(m, view, search))
  }

  /** The modules of one team, in catalog order. */
  function TeamModules(ms: seq<Module>, team: TeamType): (r: seq<Module>)
    ensures forall m :: m in r <==> m in ms && m.team == team
  {
    Filter(ms, (m: Module) => m.team == team)
  }

  /** With an empty search the view lists every module of its team. */
  lemma EmptySearchListsTeam(ms: seq<Module>, view: AppView)
    ensures FilteredModules(ms, view, "") == TeamModules(ms, ViewTeam(view))
  {
    forall k | 0 <= k < |ms|
      ensures ModuleMatches(ms[k], view, "") == (ms[k].team == ViewTeam(view))
    {
      MentionsEmpty(ms[k].title);
    }
    FilterAgree(ms, m => ModuleMatches(m, view, ""), (m: Module) => m.team == ViewTeam(view));
  }

  /** The red and blue listings together cover the catalog exactly once. */
  lemma TeamsPartition(ms: seq<Module>)
    ensures |TeamModules(ms, RedTeam)| + |TeamModules(ms, BlueTeam)| == |ms|
  {
    FilterSplit(ms, (m: Module) => m.team == RedTeam, (m: Module) => m.team == BlueTeam);
  }

  /** Typing more search text can only narrow the listing. */
  lemma LongerSearchNarrows(ms: seq<Module>, view: AppView, search: string, more: string)
    ensures forall m :: m in FilteredModules(ms, view, search + more) ==> m in FilteredModules(ms, view, search)
  {
    forall m | m in FilteredModules(ms, view, search + more)
      ensures m in FilteredModules(ms, view, search)
    {
      if Mentions(m.title, search + more) {
        MentionsPrefix(m.title, search, more);
      } else {
        MentionsPrefix(m.category, search, more);
      }
    }
  }

  /** Appending a module adds it to a listing exactly when it matches. */
  lemma FilteredAfterAppend(ms: seq<Module>, m: Module, view: AppView, search: string)
    ensures FilteredModules(ms + [m], view, search)
         == FilteredModules(ms, view, search) + (if ModuleMatches(m, view, search) then [m] else [])
  {
    FilterAppend(ms, [m], m' => ModuleMatches(m', view, search));
    assert [m][1..] == [];
  }

  predicate PostMatches(p: BlogPost, search: string) {
    Mentions(p.title, search) || Mentions(p.bnTitle, search) || Mentions(p.category, search)
  }

  /** `filteredPosts`, over whatever list of posts the journal holds. */
  function FilteredPosts(posts: seq<BlogPost>, search: string): (r: seq<BlogPost>)
    ensures forall p :: p in r <==>
              (p in posts && (Mentions(p.title, search) || Mentions(p.bnTitle, search) || Mentions(p.category, search)))
  {
    Filter(posts, p => PostMatches(p, search))
  }

  /** With an empty search the journal lists every post. */
  lemma EmptySearchListsAllPosts(posts: seq<BlogPost>)
    ensures FilteredPosts(posts, "") == posts
  {
    forall k | 0 <= k < |posts| ensures PostMatches(posts[k], "") {
      MentionsEmpty(posts[k].title);
    }
    FilterKeepsAll(posts, p => PostMatches(p, ""));
  }
}
