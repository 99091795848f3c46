/** First-match-wins keyword rules: the `if any(w in text for w in words): ...
    elif ...` chains the agents use to pick a tag, as a list of rules tried in
    order with a default when none applies. */
module KeywordRules {
  import opened Common
  import opened Strings

  /** One branch of a chain: the label it returns when any keyword occurs. */
  datatype Rule = Rule(keywords: seq<string>, tag: string)

  /** The position of the first rule one of whose keywords occurs in `text`. */
  function FirstRule(text: string, rules: seq<Rule>): (r: Option<nat>)
    ensures r.Some? ==> r.value < |rules| && AnyIn(text, rules[r.value].keywords)
    ensures r.Some? ==> forall j :: 0 <= j < r.value ==> !AnyIn(text, rules[j].keywords)
    ensures r.None? ==> forall j :: 0 <= j < |rules| ==> !AnyIn(text, rules[j].keywords)
  {
    if |rules| == 0 then None
    else if AnyIn(text, rules[0].keywords) then Some(0)
    else
      match FirstRule(text, rules[1..])
      case None => None
      case Some(i) => Some(i + 1)
  }

  /** The tag of the first rule that applies, else `default`. */
  function Pick(text: string, rules: seq<Rule>, default: string): (r: string)
    ensures r == default || exists i :: 0 <= i < |rules| && rules[i].tag == r
  {
    match FirstRule(text, rules)
    case None => default
    case Some(i) => rules[i].tag
  }

  /** A rule applies when it is the first whose keywords occur. */
  lemma PickFirst(text: string, rules: seq<Rule>, default: string, i: nat)
    requires i < |rules| && AnyIn(text, rules[i].keywords)
    requires forall j :: 0 <= j < i ==> !AnyIn(text, rules[j].keywords)
    ensures Pick(text, rules, default) == rules[i].tag
  {
  }

  /** The default is returned exactly when no rule applies. */
  lemma PickDefault(text: string, rules: seq<Rule>, default: string)
    requires forall i :: 0 <= i < |rules| ==> rules[i].tag != default
    ensures Pick(text, rules, default) == default <==> forall j :: 0 <= j < |rules| ==> !AnyIn(text, rules[j].keywords)
  {
  }

  /** With distinct tags, a rule's tag is returned exactly when one of its
      keywords occurs and no keyword of an earlier rule does. */
  lemma PickExactly(text: string, rules: seq<Rule>, default: string, i: nat)
    requires i < |rules|
    requires forall j, k :: 0 <= j < k < |rules| ==> rules[j].tag != rules[k].tag
    requires forall j :: 0 <= j < |rules| ==> rules[j].tag != default
    ensures Pick(text, rules, default) == rules[i].tag <==>
      AnyIn(text, rules[i].keywords) && forall j :: 0 <= j < i ==> !AnyIn(text, rules[j].keywords)
  {
    var r := FirstRule(text, rules);
    if r.Some? && r.value != i {
      assert rules[r.value].tag != rules[i].tag;
    }
  }

  /** A keyword of the first rule decides the tag whatever else occurs. */
  lemma PickKeyword(text: string, rules: seq<Rule>, default: string, k: nat)
    requires |rules| > 0 && k < |rules[0].keywords| && Contains(text, rules[0].keywords[k])
    ensures Pick(text, rules, default) == rules[0].tag
  {
    AnyInAt(text, rules[0].keywords, k);
  }
}
