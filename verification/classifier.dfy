/**
  The two decision functions of the support demo: the keyword classifier that
  the Analysis Agent applies to a question, and the fixed reply table that the
  Response Agent applies to the classification.
 */
module Classifier {
  import opened Text

  /** The three categories a question can fall into. */
  datatype Classification = Billing | Technical | General

  /** The display name of a classification, as it appears in records and the log. */
  function Label(c: Classification): string {
    match c
    case Billing => "Billing"
    case Technical => "Technical"
    case General => "General"
  }

  /** Distinct classifications have distinct labels. */
  lemma LabelInjective(c1: Classification, c2: Classification)
    ensures Label(c1) == Label(c2) <==> c1 == c2
  {
  }

  /**
    Case-insensitive keyword classification with ordered rules: "bill" wins,
    then "tech" or "error", and everything else is General.
   */
  function Classify(q: string): (c: Classification)
    ensures c == Billing <==> Contains(ToLower(q), "bill")
    ensures c == Technical <==>
              !Contains(ToLower(q), "bill") && (Contains(ToLower(q), "tech") || Contains(ToLower(q), "error"))
    ensures c == General <==>
              !Contains(ToLower(q), "bill") && !Contains(ToLower(q), "tech") && !Contains(ToLower(q), "error")
  {
    var lower := ToLower(q);
    if Includes(lower, "bill") then Billing
    else if Includes(lower, "tech") || Includes(lower, "error") then Technical
    else General
  }

  /** Upper- and lower-case spellings of a question classify alike. */
  lemma ClassifyIgnoresCase(q: string)
    ensures Classify(ToLower(q)) == Classify(q)
  {
    ToLowerIdempotent(q);
  }

  /**
    A "bill" keyword, in any letter case and anywhere in the question, makes it
    Billing, whatever other keywords the rest of the question holds.
   */
  lemma BillingKeywordWins(before: string, keyword: string, after: string)
    requires ToLower(keyword) == "bill"
    ensures Classify(before + keyword + after) == Billing
  {
    ToLowerAppend(before + keyword, after);
    ToLowerAppend(before, keyword);
    ContainsInContext(ToLower(before), "bill", ToLower(after));
  }

  /**
    A "tech" or "error" keyword, in any letter case and anywhere in the
    question, makes it Technical unless "bill" occurs somewhere.
   */
  lemma TechnicalKeywordWins(before: string, keyword: string, after: string)
    requires ToLower(keyword) == "tech" || ToLower(keyword) == "error"
    requires !Contains(ToLower(before + keyword + after), "bill")
    ensures Classify(before + keyword + after) == Technical
  {
    ToLowerAppend(before + keyword, after);
    ToLowerAppend(before, keyword);
    ContainsInContext(ToLower(before), ToLower(keyword), ToLower(after));
  }

  /** Keyword facts about the sample questions, which are already lower case. */
  lemma SampleKeywords()
    ensures Contains("billing issue", "bill")
    ensures Contains("bill and tech", "bill")
    ensures !Contains("tech support needed", "bill") && Contains("tech support needed", "tech")
    ensures !Contains("error on page", "bill") && Contains("error on page", "error")
    ensures !Contains("hello there", "bill") && !Contains("hello there", "tech")
    ensures !Contains("hello there", "error")
  {
    assert OccursAt("billing issue", "bill", 0);
    assert OccursAt("bill and tech", "bill", 0);
    AbsentPairNotContained("tech support needed", "bill", 0);
    assert OccursAt("tech support needed", "tech", 0);
    AbsentPairNotContained("error on page", "bill", 0);
    assert OccursAt("error on page", "error", 0);
    AbsentPairNotContained("hello there", "bill", 0);
    AbsentPairNotContained("hello there", "tech", 0);
    AbsentPairNotContained("hello there", "error", 1);
  }

  /** For a question already in lower case the rules read directly off the question. */
  lemma ClassifyLowerCase(q: string)
    requires forall i :: 0 <= i < |q| ==> !IsUpper(q[i])
    ensures Classify(q) == if Contains(q, "bill") then Billing
                           else if Contains(q, "tech") || Contains(q, "error") then Technical
                           else General
  {
    ToLowerOfLower(q);
  }

  // Sample questions and how they classify.

  lemma ClassifyBillingIssue()
    ensures Classify("billing issue") == Billing
  {
    SampleKeywords();
    ClassifyLowerCase("billing issue");
  }

  lemma ClassifyBillAndTech()
    ensures Classify("bill and tech") == Billing
  {
    SampleKeywords();
    ClassifyLowerCase("bill and tech");
  }

  lemma ClassifyTechSupport()
    ensures Classify("tech support needed") == Technical
  {
    SampleKeywords();
    ClassifyLowerCase("tech support needed");
  }

  lemma ClassifyErrorOnPage()
    ensures Classify("error on page") == Technical
  {
    SampleKeywords();
    ClassifyLowerCase("error on page");
  }

  lemma ClassifyHelloThere()
    ensures Classify("hello there") == General
  {
    SampleKeywords();
    ClassifyLowerCase("hello there");
  }

  const BillingReply: string := "Please contact our billing department."
  const TechnicalReply: string := "Let me help you with that technical issue."
  const GeneralReply: string := "Thank you for reaching out!"

  /**
    The reply table. It takes the classification as its text label, so it is
    defined on every string: the two specific labels select their reply and
    every other string, "General" included, gets the generic one.
   */
  function Respond(tag: string): (r: string)
    ensures r == BillingReply <==> tag == "Billing"
    ensures r == TechnicalReply <==> tag == "Technical"
    ensures r == GeneralReply <==> tag != "Billing" && tag != "Technical"
  {
    if tag == "Billing" then BillingReply
    else if tag == "Technical" then TechnicalReply
    else GeneralReply
  }

  /** The reply to a classified question identifies its classification. */
  lemma RespondDistinguishes(c1: Classification, c2: Classification)
    ensures Respond(Label(c1)) == Respond(Label(c2)) <==> c1 == c2
  {
    LabelInjective(c1, c2);
  }

  /** Any string that is not one of the two specific labels is answered like General. */
  lemma RespondDefaultsToGeneral(tag: string)
    requires tag != Label(Billing) && tag != Label(Technical)
    ensures Respond(tag) == Respond(Label(General))
  {
  }
}
