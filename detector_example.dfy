/**
 The detector's decisions on the labels "create PO", "creat PO" and
 "ship item", the example of near-duplicate activity labels, and on a label
 whose character needs a surrogate pair.
 */
module DetectorExample {
  import opened Levenshtein
  import opened Utf16
  import opened DistortedLabel

  /** "create PO" and "creat PO" are one deletion apart. */
  lemma CreatPODistance()
    ensures Distance("create PO", "creat PO") == 1
  {
    OneInsertionApart("creat", 'e', " PO");
    assert "creat" + ['e'] + " PO" == "create PO";
    assert "creat" + " PO" == "creat PO";
  }

  /** The characters that set the labels apart from "ship item". */
  const Apart: set<char> := {'c', 'r', 'a', 'P', 'O'}

  lemma CreatePOCount()
    ensures CountIn("create PO", Apart) == 5
  {
  }

  lemma CreatPOCount()
    ensures CountIn("creat PO", Apart) == 5
  {
  }

  lemma ShipItemCount()
    ensures CountIn("ship item", Apart) == 0
  {
  }

  /** "create PO" is more than two edits from "ship item". */
  lemma CreatePOFar(a: string, c: string)
    requires a == "create PO" && c == "ship item"
    ensures Distance(a, c) > 2
  {
    CreatePOCount();
    ShipItemCount();
    FarApart(a, c, Apart, 2);
  }

  /** "creat PO" is more than two edits from "ship item". */
  lemma CreatPOFar(b: string, c: string)
    requires b == "creat PO" && c == "ship item"
    ensures Distance(b, c) > 2
  {
    CreatPOCount();
    ShipItemCount();
    FarApart(b, c, Apart, 2);
  }

  /** The three example labels are each one code unit per character. */
  lemma ExampleInBmp(a: string, b: string, c: string)
    requires a == "create PO" && b == "creat PO" && c == "ship item"
    ensures InBmp(a) && InBmp(b) && InBmp(c)
  {
  }

  /** On Basic Multilingual Plane labels the decision is the one on characters. */
  lemma ReportsBmp(s: string, t: string, bound: nat, threshold: int)
    requires InBmp(s) && InBmp(t)
    ensures Reports(Encode(s), Encode(t), bound, threshold)
        <==> 0 < Distance(s, t) && Distance(s, t) <= bound && Distance(s, t) <= threshold
  {
    BmpDistance(s, t);
  }

  /**
   With the default threshold 2 only "create PO" and "creat PO" form a
   reported pair, and with threshold 0 no pair is.
   */
  lemma DefaultThresholdExample(a: string, b: string, c: string)
    requires a == "create PO" && b == "creat PO" && c == "ship item"
    ensures Reports(Encode(a), Encode(b), 2, 2)
    ensures !Reports(Encode(a), Encode(c), 2, 2) && !Reports(Encode(b), Encode(c), 2, 2)
    ensures !Reports(Encode(a), Encode(b), 0, 0)
    ensures !Reports(Encode(a), Encode(c), 0, 0) && !Reports(Encode(b), Encode(c), 0, 0)
  {
    ExampleInBmp(a, b, c);
    ReportsBmp(a, b, 2, 2);
    ReportsBmp(a, c, 2, 2);
    ReportsBmp(b, c, 2, 2);
    ReportsBmp(a, b, 0, 0);
    ReportsBmp(a, c, 0, 0);
    ReportsBmp(b, c, 0, 0);
    CreatPODistance();
    CreatePOFar(a, c);
    CreatPOFar(b, c);
  }

  /**
   A character outside the Basic Multilingual Plane is two code units, so
   dropping it is two edits: "a" followed by U+1F600 is one character from
   "a" but two code units, and is not reported under threshold 1.
   */
  lemma SurrogatePairExample(s: string, t: string)
    requires s == "a\U{1F600}" && t == "a"
    ensures Distance(s, t) == 1
    ensures Distance(Encode(s), Encode(t)) == 2
    ensures !Reports(Encode(s), Encode(t), 1, 1)
  {
    OneInsertionApart(t, '\U{1F600}', []);
    assert t + ['\U{1F600}'] + [] == s;
    assert t + [] == t;
    var u := Encode(s);
    var v := Encode(t);
    assert |UnitsOf('\U{1F600}')| == 2;
    assert |u| == 3 && |v| == 1;
    SharedPrefix(v, u[1..], []);
    assert v + u[1..] == u;
    assert v + [] == v;
  }
}
