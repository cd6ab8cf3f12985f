/** The rule-based classifier `ruleCategorize`: ten keyword groups tried in a
    fixed order on the upper-cased description; the first group with a
    keyword occurring in the text gives the category. */
module RuleCategorizer {
  import opened Wrappers
  import opened JsText

  /** One `if (/(K1|K2|...)/.test(d)) return category;` line. */
  datatype Rule = Rule(keywords: seq<string>, category: string)

  /** The rule table, in the order the code tests it. */
  const Rules: seq<Rule> := [
    Rule(["GROC", "SUPERMARKET", "WALMART", "KROGER", "FOOD", "MARKET"], "Groceries"),
    Rule(["RENT", "MORTG", "APARTMENT"], "Housing"),
    Rule(["UBER", "LYFT", "CAB", "TAXI", "GAS", "FUEL"], "Transport"),
    Rule(["COFFEE", "STARBUCKS", "CAFE", "RESTAURANT", "DINING"], "Food & Beverage"),
    Rule(["GYM", "FITNESS", "HEALTH"], "Health & Fitness"),
    Rule(["INSUR", "INSURANCE"], "Insurance"),
    Rule(["SALARY", "PAYROLL", "INCOME", "DEPOSIT"], "Income"),
    Rule(["UTIL", "ELECTRIC", "WATER", "INTERNET"], "Utilities"),
    Rule(["SHOP", "AMAZON", "TARGET", "STORE"], "Shopping"),
    Rule(["ENTERTAIN", "MOVIE", "NETFLIX"], "Entertainment")
  ]

  predicate Hits(rule: Rule, text: string) {
    ContainsAny(text, rule.keywords)
  }

  /** The chain of `if` tests over `rules`, on text that is already upper-cased. */
  function FirstMatch(rules: seq<Rule>, text: string): Option<string> {
    if rules == [] then None
    else if Hits(rules[0], text) then Some(rules[0].category)
    else FirstMatch(rules[1..], text)
  }

  /** The chain returns nothing exactly when no rule hits, and otherwise the
      category of the earliest rule that hits. */
  lemma {:induction false} FirstMatchIsEarliestHit(rules: seq<Rule>, text: string)
    ensures FirstMatch(rules, text).None? <==> forall i :: 0 <= i < |rules| ==> !Hits(rules[i], text)
    ensures FirstMatch(rules, text).Some? ==>
      exists i :: 0 <= i < |rules| && Hits(rules[i], text) && FirstMatch(rules, text).value == rules[i].category
               && forall j :: 0 <= j < i ==> !Hits(rules[j], text)
  {
    if rules != [] && !Hits(rules[0], text) {
      FirstMatchIsEarliestHit(rules[1..], text);
      if FirstMatch(rules[1..], text).Some? {
        var i :| 0 <= i < |rules[1..]| && Hits(rules[1..][i], text)
                 && FirstMatch(rules[1..], text).value == rules[1..][i].category
                 && forall j :: 0 <= j < i ==> !Hits(rules[1..][j], text);
        assert rules[i + 1] == rules[1..][i];
        assert forall j :: 1 <= j < i + 1 ==> rules[j] == rules[1..][j - 1];
      } else {
        assert forall i :: 1 <= i < |rules| ==> rules[i] == rules[1..][i - 1];
      }
    }
  }

  /** `ruleCategorize(desc)`: `None` stands for `null`. */
  function RuleCategorize(desc: string): (r: Option<string>)
    ensures r.None? <==> forall i :: 0 <= i < |Rules| ==> !Hits(Rules[i], Upper(desc))
    ensures r.Some? ==>
      exists i :: 0 <= i < |Rules| && Hits(Rules[i], Upper(desc)) && r.value == Rules[i].category
               && forall j :: 0 <= j < i ==> !Hits(Rules[j], Upper(desc))
  {
    FirstMatchIsEarliestHit(Rules, Upper(desc));
    FirstMatch(Rules, Upper(desc))
  }

  /** A rule hit is one of the ten categories of the table, never empty. */
  lemma RuleCategoryInTable(desc: string)
    requires RuleCategorize(desc).Some?
    ensures RuleCategorize(desc).value in
      {"Groceries", "Housing", "Transport", "Food & Beverage", "Health & Fitness",
       "Insurance", "Income", "Utilities", "Shopping", "Entertainment"}
    ensures RuleCategorize(desc).value != ""
  {
    var i :| 0 <= i < |Rules| && RuleCategorize(desc).value == Rules[i].category;
  }

  /** The classifier ignores letter case. */
  lemma RuleCaseInsensitive(desc: string)
    ensures RuleCategorize(Upper(desc)) == RuleCategorize(desc)
    ensures RuleCategorize(Lower(desc)) == RuleCategorize(desc)
  {
    UpperIdempotent(desc);
    UpperOfLower(desc);
  }

  /** A rule hits text in which its `n`-th keyword starts at `at`. */
  lemma HitAt(rule: Rule, text: string, n: nat, at: nat)
    requires n < |rule.keywords| && at <= |text|
    requires IsPrefix(rule.keywords[n], text[at..])
    ensures Hits(rule, text)
  {
    assert Contains(text, rule.keywords[n]);
  }

  /** "Whole Foods Market" contains the grocery keyword FOOD: Groceries. */
  lemma WholeFoodsIsGroceries()
    ensures RuleCategorize("Whole Foods Market") == Some("Groceries")
  {
    UpperWholeFoods();
    var d := "WHOLE FOODS MARKET";
    assert Rules[0].keywords[4] == "FOOD";
    assert d[6..][..4] == "FOOD";
    HitAt(Rules[0], d, 4, 6);
  }

  lemma UpperWholeFoods()
    ensures Upper("Whole Foods Market") == "WHOLE FOODS MARKET"
  {
    var d := Upper("Whole Foods Market");
    assert d[0] == 'W' && d[1] == 'H' && d[2] == 'O' && d[3] == 'L' && d[4] == 'E' && d[5] == ' ';
    assert d[6] == 'F' && d[7] == 'O' && d[8] == 'O' && d[9] == 'D' && d[10] == 'S' && d[11] == ' ';
    assert d[12] == 'M' && d[13] == 'A' && d[14] == 'R' && d[15] == 'K' && d[16] == 'E' && d[17] == 'T';
  }

  /** Order decides overlaps: "Market Cafe" hits both the Groceries rule
      (MARKET) and the Food & Beverage rule (CAFE); the earlier one wins. */
  lemma EarlierRuleWins()
    ensures Hits(Rules[3], Upper("Market Cafe"))
    ensures RuleCategorize("Market Cafe") == Some("Groceries")
  {
    MarketCafeHitsBoth();
  }

  lemma MarketCafeHitsBoth()
    ensures Hits(Rules[0], Upper("Market Cafe"))
    ensures Hits(Rules[3], Upper("Market Cafe"))
  {
    UpperMarketCafe();
    var d := "MARKET CAFE";
    assert Rules[0].keywords[5] == "MARKET";
    assert d[0..][..6] == "MARKET";
    HitAt(Rules[0], d, 5, 0);
    assert Rules[3].keywords[2] == "CAFE";
    assert d[7..][..4] == "CAFE";
    HitAt(Rules[3], d, 2, 7);
  }

  lemma UpperMarketCafe()
    ensures Upper("Market Cafe") == "MARKET CAFE"
  {
    var d := Upper("Market Cafe");
    assert d[0] == 'M' && d[1] == 'A' && d[2] == 'R' && d[3] == 'K' && d[4] == 'E' && d[5] == 'T';
    assert d[6] == ' ' && d[7] == 'C' && d[8] == 'A' && d[9] == 'F' && d[10] == 'E';
  }

  /** Text that no keyword occurs in is left to the AI fallback. */
  lemma NoKeywordNoRule(desc: string)
    requires forall i, k :: 0 <= i < |Rules| && k in Rules[i].keywords ==> !Contains(Upper(desc), k)
    ensures RuleCategorize(desc) == None
  {
  }
}
