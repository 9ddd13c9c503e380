/**
 * `detectPlatform` (backend/server.js): the label a contest listing gets from
 * the name of the resource that hosts it and the contest's title.
 */
module Classifier {
  import opened Wrappers
  import opened Text

  datatype Resource = Resource(name: Option<string>)

  /** One object of the upstream listing; `start` is the UTC start time in milliseconds. */
  datatype Entry = Entry(id: int, event: string, start: int, href: string, resource: Option<Resource>)

  datatype Label = Codeforces | LeetCode | CodeChef | AtCoder | Other {
    /** The string the service puts in the `platform` field. */
    function Name(): string {
      match this
      case Codeforces => "Codeforces"
      case LeetCode => "LeetCode"
      case CodeChef => "CodeChef"
      case AtCoder => "AtCoder"
      case Other => "Other"
    }
  }

  /** `c.resource?.name?.toLowerCase() || ""`: an absent resource or name reads as the empty string. */
  function ResourceName(c: Entry): string {
    match c.resource
    case None => ""
    case Some(r) =>
      match r.name
      case None => ""
      case Some(n) => Lower(n)
  }

  function EventName(c: Entry): string {
    Lower(c.event)
  }

  // The four rules, each on the lower-cased resource name and title.
  predicate CodeforcesRule(name: string, event: string) {
    Contains(name, "codeforces") && Contains(event, "div. 3")
  }

  predicate LeetCodeRule(name: string, event: string) {
    Contains(name, "leetcode") && (Contains(event, "weekly") || Contains(event, "biweekly"))
  }

  predicate CodeChefRule(name: string, event: string) {
    Contains(name, "codechef") && Contains(event, "starter")
  }

  predicate AtCoderRule(name: string, event: string) {
    Contains(name, "atcoder") && Contains(event, "beginner")
  }

  /** The first rule that matches decides; an entry no rule matches is `Other`. */
  function DetectPlatform(c: Entry): Label {
    var name, event := ResourceName(c), EventName(c);
    if CodeforcesRule(name, event) then Codeforces
    else if LeetCodeRule(name, event) then LeetCode
    else if CodeChefRule(name, event) then CodeChef
    else if AtCoderRule(name, event) then AtCoder
    else Other
  }

  /** Every label the classifier can return has a distinct name. */
  lemma NameInjective(a: Label, b: Label)
    requires a.Name() == b.Name()
    ensures a == b
  {
  }

  /** A title that mentions "biweekly" mentions "weekly". */
  lemma BiweeklyIsWeekly(event: string)
    requires Contains(event, "biweekly")
    ensures Contains(event, "weekly")
  {
    ContainsAt("biweekly", "weekly", 2);
    ContainsTransitive(event, "biweekly", "weekly");
  }

  /** The "biweekly" alternative of the LeetCode rule never changes its outcome. */
  lemma LeetCodeRuleIsWeekly(name: string, event: string)
    ensures LeetCodeRule(name, event) <==> Contains(name, "leetcode") && Contains(event, "weekly")
  {
    if Contains(event, "biweekly") {
      BiweeklyIsWeekly(event);
    }
  }

  /** Each label, stated as the rule that yields it and the earlier rules that must fail. */
  lemma DetectPlatformRules(c: Entry)
    ensures var name, event := ResourceName(c), EventName(c);
      && (DetectPlatform(c) == Codeforces <==>
            Contains(name, "codeforces") && Contains(event, "div. 3"))
      && (DetectPlatform(c) == LeetCode <==>
            !CodeforcesRule(name, event)
            && Contains(name, "leetcode") && Contains(event, "weekly"))
      && (DetectPlatform(c) == CodeChef <==>
            !CodeforcesRule(name, event) && !LeetCodeRule(name, event)
            && Contains(name, "codechef") && Contains(event, "starter"))
      && (DetectPlatform(c) == AtCoder <==>
            !CodeforcesRule(name, event) && !LeetCodeRule(name, event) && !CodeChefRule(name, event)
            && Contains(name, "atcoder") && Contains(event, "beginner"))
      && (DetectPlatform(c) == Other <==>
            !CodeforcesRule(name, event) && !LeetCodeRule(name, event)
            && !CodeChefRule(name, event) && !AtCoderRule(name, event))
  {
    LeetCodeRuleIsWeekly(ResourceName(c), EventName(c));
  }

  /** A missing resource, or a resource without a name, is never recognised. */
  lemma MissingNameIsOther(c: Entry)
    requires c.resource.None? || c.resource.value.name.None?
    ensures DetectPlatform(c) == Other
  {
    NothingNonEmptyInEmpty("codeforces");
    NothingNonEmptyInEmpty("leetcode");
    NothingNonEmptyInEmpty("codechef");
    NothingNonEmptyInEmpty("atcoder");
  }

  /** Lower-cases the resource name and the title, leaving everything else as it is. */
  function Lowered(c: Entry): Entry {
    var resource := match c.resource
      case None => None
      case Some(r) => Some(Resource(match r.name case None => None case Some(n) => Some(Lower(n))));
    c.(event := Lower(c.event), resource := resource)
  }

  /** Classification ignores letter case. */
  lemma CaseInsensitive(c: Entry, d: Entry)
    requires ResourceName(c) == ResourceName(d) && Lower(c.event) == Lower(d.event)
    ensures DetectPlatform(c) == DetectPlatform(d)
  {
  }

  /** Writing the name and title in lower case does not change the label. */
  lemma LoweredSameLabel(c: Entry)
    ensures DetectPlatform(Lowered(c)) == DetectPlatform(c)
  {
    LowerIdempotent(c.event);
    if c.resource.Some? && c.resource.value.name.Some? {
      LowerIdempotent(c.resource.value.name.value);
    }
  }

  // Lower-casing the literal inputs of the examples below, one string at a time.
  lemma LowerCodeforcesInputs()
    ensures Lower("Codeforces Round") == "codeforces round"
  {
  }

  lemma LowerCodeforcesTitle()
    ensures Lower("Codeforces Round 920 (Div. 3)") == "codeforces round 920 (div. 3)"
  {
  }

  lemma LowerLeetCodeInputs()
    ensures Lower("LeetCode") == "leetcode"
    ensures Lower("Weekly Contest 410") == "weekly contest 410"
  {
  }

  lemma LowerHackerRank()
    ensures Lower("HackerRank") == "hackerrank"
  {
  }

  lemma CodeforcesExample()
    ensures DetectPlatform(Entry(1, "Codeforces Round 920 (Div. 3)", 0, "",
                                 Some(Resource(Some("Codeforces Round"))))) == Codeforces
  {
    LowerCodeforcesInputs();
    LowerCodeforcesTitle();
    ContainsAt("codeforces round", "codeforces", 0);
    ContainsAt("codeforces round 920 (div. 3)", "div. 3", 22);
  }

  lemma LeetCodeExample()
    ensures DetectPlatform(Entry(2, "Weekly Contest 410", 0, "",
                                 Some(Resource(Some("LeetCode"))))) == LeetCode
  {
    LowerLeetCodeInputs();
    ContainsAt("leetcode", "leetcode", 0);
    ContainsAt("weekly contest 410", "weekly", 0);
    MissingCharNotContained("leetcode", "codeforces", 4);
  }

  lemma OtherExample()
    ensures DetectPlatform(Entry(3, "Anything", 0, "", Some(Resource(Some("HackerRank"))))) == Other
  {
    LowerHackerRank();
    MissingCharNotContained("hackerrank", "codeforces", 1);
    MissingCharNotContained("hackerrank", "leetcode", 0);
    MissingCharNotContained("hackerrank", "codechef", 1);
    MissingCharNotContained("hackerrank", "atcoder", 1);
  }
}
