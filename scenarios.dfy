/**
 * What the substring test means for actual file names: keywords are found
 * inside longer words and numbers, and one upload can take several roles.
 */
module UploadScenarios {
  import opened Strings
  import opened UploadRoles

  /** Any name with the digit 3 in it matches the third workbook's keywords,
      a year such as 2023 included. */
  lemma DigitThreeMatchesThird(name: string, i: nat)
    requires i < |name| && name[i] == '3'
    ensures Matches(name, Keywords(Third))
  {
    var low := Lower(name);
    assert low[i..i + 1] == "3";
    assert OccursAt(low, Keywords(Third)[3], i);
  }

  /** So a quality workbook listed first whose name carries a 3 is read as
      the quality data and as the third workbook, and one upload is not read. */
  lemma DigitThreeInQualityName(names: seq<string>, i: nat)
    requires |names| == RequiredCount
    requires Matches(names[0], Keywords(Data))
    requires i < |names[0]| && names[0][i] == '3'
    ensures Assign(names).data == 0 && Assign(names).third == 0
    ensures |{Assign(names).data, Assign(names).mma, Assign(names).third}| <= 2
  {
    DigitThreeMatchesThird(names[0], i);
    assert Pick(names, Data) == Some(0) && Pick(names, Third) == Some(0);
    var a := Assign(names);
    assert {a.data, a.mma, a.third} == {0, a.mma};
  }

  lemma AllRolesNameMatches(name: string)
    requires name == "Kalite_MMA_2023.xlsx"
    ensures Matches(name, Keywords(Data)) && Matches(name, Keywords(Mma))
  {
    var low := Lower(name);
    assert low[0..6] == "kalite" && OccursAt(low, Keywords(Data)[2], 0);
    assert low[7..10] == "mma" && OccursAt(low, Keywords(Mma)[0], 7);
  }

  /** An upload named after the quality data, the MMA survey and a year,
      listed first, takes all three roles whatever the other two uploads are
      called; they are not read. */
  lemma OneUploadTakesAllRoles(first: string, second: string, third: string)
    requires first == "Kalite_MMA_2023.xlsx"
    ensures Resolve([first, second, third]) == Resolved(Assignment(0, 0, 0))
  {
    var names := [first, second, third];
    AllRolesNameMatches(first);
    assert first[14] == '3';
    DigitThreeMatchesThird(first, 14);
    assert Pick(names, Data) == Some(0);
    assert Pick(names, Mma) == Some(0);
    assert Pick(names, Third) == Some(0);
  }
}
