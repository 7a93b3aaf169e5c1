/** The product-type classifier of the idea handler: the generated idea is
    lower-cased and searched for keywords in a fixed priority order, and the
    first keyword found decides the product type. */
module Classifier {
  import opened AsciiText

  /** The four values the classifier can store as the session's product type. */
  predicate IsProductType(t: string)
  {
    t == "mug" || t == "t-shirt" || t == "poster" || t == "product"
  }

  /** The keyword chain of the idea handler: "mug", then "shirt" or "t-shirt",
      then "poster", and "product" when none of them is present. */
  function Classify(idea: string): (t: string)
    ensures IsProductType(t)
    ensures t == "mug" <==> Occurs(Lower(idea), "mug")
    ensures t == "t-shirt" <==> !Occurs(Lower(idea), "mug") && Occurs(Lower(idea), "shirt")
    ensures t == "poster" <==>
      !Occurs(Lower(idea), "mug") && !Occurs(Lower(idea), "shirt") && Occurs(Lower(idea), "poster")
    ensures t == "product" <==>
      !Occurs(Lower(idea), "mug") && !Occurs(Lower(idea), "shirt") && !Occurs(Lower(idea), "poster")
  {
    var lower := Lower(idea);
    ContainsIffOccurs(lower, "mug");
    ContainsIffOccurs(lower, "shirt");
    ContainsIffOccurs(lower, "poster");
    TShirtMentionsShirt(lower);
    if Contains(lower, "mug") then "mug"
    else if Contains(lower, "shirt") || Contains(lower, "t-shirt") then "t-shirt"
    else if Contains(lower, "poster") then "poster"
    else "product"
  }

  /** The "t-shirt" test of the chain adds nothing: "t-shirt" contains "shirt". */
  lemma TShirtMentionsShirt(text: string)
    ensures Contains(text, "t-shirt") ==> Contains(text, "shirt")
  {
    if Contains(text, "t-shirt") {
      ContainsIffOccurs(text, "t-shirt");
      assert "t-shirt" == "t-" + "shirt";
      OccursOfSuffix(text, "t-", "shirt");
      ContainsIffOccurs(text, "shirt");
    }
  }

  /** Classification ignores case: an idea and its lower-cased form agree. */
  lemma ClassifyIgnoresCase(idea: string)
    ensures Classify(Lower(idea)) == Classify(idea)
  {
    LowerIdempotent(idea);
  }

  /** "mug" wins over every other keyword, whatever else the idea mentions. */
  lemma MugWins(idea: string, other: string)
    requires Occurs(Lower(idea), "mug")
    ensures Classify(idea) == "mug"
    ensures Classify(idea + other) == "mug" && Classify(other + idea) == "mug"
  {
    var i :| OccursAt(Lower(idea), "mug", i);
    assert Lower(idea + other)[i..i + 3] == Lower(idea)[i..i + 3];
    assert OccursAt(Lower(idea + other), "mug", i);
    var k := |other| + i;
    assert Lower(other + idea)[k..k + 3] == Lower(idea)[i..i + 3];
    assert OccursAt(Lower(other + idea), "mug", k);
  }

  /** A keyword rule of the priority list: any of `keywords` selects `productType`. */
  datatype Rule = Rule(keywords: seq<string>, productType: string)

  /** The classifier's priority list, as an explicit ordered table. */
  const Rules: seq<Rule> :=
    [Rule(["mug"], "mug"), Rule(["shirt", "t-shirt"], "t-shirt"), Rule(["poster"], "poster")]

  const Fallback: string := "product"

  predicate Matches(r: Rule, text: string)
  {
    exists k :: k in r.keywords && Contains(text, k)
  }

  /** The product type of the first rule that matches `text`, or `fallback`. */
  function FirstMatch(rules: seq<Rule>, text: string, fallback: string): (result: string)
    ensures (exists i :: 0 <= i < |rules| && Matches(rules[i], text) && result == rules[i].productType
                         && forall j :: 0 <= j < i ==> !Matches(rules[j], text))
         || (result == fallback && forall j :: 0 <= j < |rules| ==> !Matches(rules[j], text))
  {
    if rules == [] then fallback
    else if Matches(rules[0], text) then rules[0].productType
    else
      var result := FirstMatch(rules[1..], text, fallback);
      assert forall j :: 1 <= j < |rules| ==> rules[j] == rules[1..][j - 1];
      result
  }

  /** The if-chain of the handler is first-match over the rule table. */
  lemma ClassifyIsFirstMatch(idea: string)
    ensures Classify(idea) == FirstMatch(Rules, Lower(idea), Fallback)
  {
    var lower := Lower(idea);
    var mug, shirt, poster := Rules[0], Rules[1], Rules[2];
    assert Matches(mug, lower) <==> Contains(lower, "mug") by {
      assert mug.keywords == ["mug"];
    }
    assert Matches(shirt, lower) <==> Contains(lower, "shirt") || Contains(lower, "t-shirt") by {
      assert shirt.keywords == ["shirt", "t-shirt"];
    }
    assert Matches(poster, lower) <==> Contains(lower, "poster") by {
      assert poster.keywords == ["poster"];
    }
    ContainsIffOccurs(lower, "mug");
    ContainsIffOccurs(lower, "shirt");
    ContainsIffOccurs(lower, "poster");
    TShirtMentionsShirt(lower);
  }
}
