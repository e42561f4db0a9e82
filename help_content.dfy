/**
 * The help search (src/data/helpContent.ts): the help items whose question,
 * answer or tags contain the query. The table of help items is a parameter;
 * its texts are display content.
 */
module HelpContent {
  import opened Text

  datatype Section = CathLab | Rounds | AdminSection | Billing | General

  datatype HelpItem = HelpItem(id: string, section: Section, question: string, answer: string, tags: seq<string>)

  /** Some tag contains the query; tags are matched as written, without lowercasing. */
  predicate SomeTagContains(tags: seq<string>, q: string)
  {
    exists i :: 0 <= i < |tags| && Contains(tags[i], q)
  }

  /** One item against the lowercased, trimmed query. */
  predicate MatchesQuery(item: HelpItem, q: string)
  {
    || Contains(Lower(item.question), q)
    || Contains(Lower(item.answer), q)
    || SomeTagContains(item.tags, q)
  }

  function MatchingQuery(q: string): HelpItem -> bool
  {
    (item: HelpItem) => MatchesQuery(item, q)
  }

  /** The query as matched: lowercased, then trimmed. */
  function NormalQuery(query: string): string
  {
    Trim(Lower(query))
  }

  /**
   * `searchHelp`: nothing for a blank query; otherwise the items matching the
   * lowercased, trimmed query, in table order.
   */
  function SearchHelp(items: seq<HelpItem>, query: string): (r: seq<HelpItem>)
    ensures NormalQuery(query) == "" ==> r == []
    ensures NormalQuery(query) != "" ==>
      forall item :: item in r <==> item in items && MatchesQuery(item, NormalQuery(query))
    ensures IsSubsequence(r, items)
  {
    var q := NormalQuery(query);
    if q == "" then
      []
    else
      FilterIsSubsequence(items, MatchingQuery(q));
      Filter(items, MatchingQuery(q))
  }

  /** The search ignores the case of the query. */
  lemma SearchIgnoresCase(items: seq<HelpItem>, query: string)
    ensures SearchHelp(items, Lower(query)) == SearchHelp(items, query)
  {
    LowerIdempotent(query);
  }

  /** A query that differs only in leading or trailing blanks finds the same items. */
  lemma SearchIgnoresSurroundingBlanks(items: seq<HelpItem>, query: string)
    ensures SearchHelp(items, Trim(query)) == SearchHelp(items, query)
  {
    LowerTrimCommute(query);
    TrimOfTrimmed(Trim(Lower(query)));
  }

  /** Lowercasing keeps blanks where they are, so it commutes with trimming. */
  lemma {:induction false} LowerTrimCommute(s: string)
    ensures Lower(Trim(s)) == Trim(Lower(s))
  {
    TrimLowerForm(s);
    TrimEndLower(TrimStart(s));
  }

  lemma {:induction false} TrimLowerForm(s: string)
    ensures Trim(Lower(s)) == Lower(TrimStart(s))[..|TrimStart(s)| - TrailingSpaces(Lower(TrimStart(s)))]
  {
    TrimStartLower(s);
  }

  lemma {:induction false} TrimEndLower(t: string)
    ensures Lower(t)[..|t| - TrailingSpaces(Lower(t))] == Lower(t[..|t| - TrailingSpaces(t)])
  {
    LowerTrailing(t);
    LowerPrefix(t, |t| - TrailingSpaces(t));
  }

  lemma {:induction false} TrimStartLower(s: string)
    ensures TrimStart(Lower(s)) == Lower(TrimStart(s))
  {
    var l := LeadingSpaces(s);
    LowerLeading(s);
    assert TrimStart(Lower(s)) == Lower(s)[l..];
    LowerSuffix(s, l);
  }

  /** Lowercasing a suffix is taking the suffix of the lowercased string. */
  lemma LowerSuffix(s: string, a: nat)
    requires a <= |s|
    ensures Lower(s[a..]) == Lower(s)[a..]
  {
  }

  /** Lowercasing a prefix is taking the prefix of the lowercased string. */
  lemma LowerPrefix(s: string, b: nat)
    requires b <= |s|
    ensures Lower(s[..b]) == Lower(s)[..b]
  {
  }

  lemma {:induction false} LowerLeading(s: string)
    ensures LeadingSpaces(Lower(s)) == LeadingSpaces(s)
    decreases |s|
  {
    if |s| > 0 && IsSpace(s[0]) {
      assert Lower(s)[1..] == Lower(s[1..]);
      LowerLeading(s[1..]);
    }
  }

  lemma {:induction false} LowerTrailing(s: string)
    ensures TrailingSpaces(Lower(s)) == TrailingSpaces(s)
    decreases |s|
  {
    if |s| > 0 && IsSpace(s[|s| - 1]) {
      assert Lower(s)[..|s| - 1] == Lower(s[..|s| - 1]);
      LowerTrailing(s[..|s| - 1]);
    }
  }

  /** Every non-blank query found in an item's lowercase question finds that item. */
  lemma QuestionWordsFindItem(items: seq<HelpItem>, item: HelpItem, query: string)
    requires item in items
    requires NormalQuery(query) != "" && Contains(Lower(item.question), NormalQuery(query))
    ensures item in SearchHelp(items, query)
  {
  }
}
