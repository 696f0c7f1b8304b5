/**
 * Assignment of the uploaded workbooks of the quality dashboard to the three
 * roles the rest of the page reads them in: the quality data workbook (read
 * from its sheet "DATA"), the customer-satisfaction (MMA) workbook (read from
 * its sheet "Data") and a third workbook (read from its first sheet).
 *
 * An upload is identified by its position in the upload list; distinct
 * positions are distinct uploads. Only the file names take part in the
 * decision.
 */
module UploadRoles {
  import opened Strings

  datatype Option<+T> = None | Some(value: T)

  /** The three roles, in the order the page fills them. */
  datatype Role = Data | Mma | Third

  /** The sheet a role's workbook is read from. */
  datatype SheetChoice = SheetNamed(name: string) | FirstSheet

  /** Upload positions chosen for the three roles. */
  datatype Assignment = Assignment(data: nat, mma: nat, third: nat)

  /** What the page does with an upload batch: stop with a warning when
      nothing, or not exactly three files, were uploaded; otherwise go on with
      an assignment of the uploads to the roles. */
  datatype Outcome = NothingUploaded | WrongCount(count: nat) | Resolved(assignment: Assignment)

  /** The number of workbooks the page insists on. */
  const RequiredCount: nat := 3

  /** The keywords looked for, per role, in the lower-cased file name. */
  function Keywords(role: Role): (ks: seq<string>)
    ensures |ks| > 0
    ensures forall i :: 0 <= i < |ks| ==> ks[i] != "" && IsLowerAscii(ks[i])
  {
    match role
    case Data => ["data", "ham", "kalite"]
    case Mma => ["mma", "anket", "memnun"]
    case Third => ["hedef", "target", "extra", "3"]
  }

  /** The sheet each role's workbook is read from: the third workbook from
      its first sheet, the other two from a sheet spelled "data" in some case. */
  function SheetOf(role: Role): (sheet: SheetChoice)
    ensures sheet.FirstSheet? <==> role == Third
    ensures sheet.SheetNamed? ==> Lower(sheet.name) == "data"
  {
    match role
    case Data => SheetNamed("DATA")
    case Mma => SheetNamed("Data")
    case Third => FirstSheet
  }

  /** The two named sheets are told apart by letter case alone. */
  lemma SheetNamesDifferOnlyInCase()
    ensures SheetOf(Data).SheetNamed? && SheetOf(Mma).SheetNamed?
    ensures SheetOf(Data) != SheetOf(Mma)
    ensures Lower(SheetOf(Data).name) == Lower(SheetOf(Mma).name)
  {
    assert SheetOf(Data).name[1] != SheetOf(Mma).name[1];
    assert Lower(SheetOf(Data).name) == "data";
    assert Lower(SheetOf(Mma).name) == "data";
  }

  // ---------------------------------------------------------------------------
  // Keyword search (pick_file)
  // ---------------------------------------------------------------------------

  /** Some keyword occurs in `name` (the `any(k in name for k in keywords)` test). */
  function AnyKeyword(name: string, keywords: seq<string>): (b: bool)
    ensures b <==> exists j :: 0 <= j < |keywords| && Contains(name, keywords[j])
  {
    if keywords == [] then false
    else Contains(name, keywords[0]) || AnyKeyword(name, keywords[1..])
  }

  /** The file name, lower-cased, contains one of the keywords. */
  predicate Matches(name: string, keywords: seq<string>) {
    AnyKeyword(Lower(name), keywords)
  }

  /** The position of the first upload whose name matches, or None when no
      name does. */
  function FirstMatch(names: seq<string>, keywords: seq<string>): (r: Option<nat>)
    ensures r.Some? ==> r.value < |names| && Matches(names[r.value], keywords)
    ensures r.Some? ==> forall j :: 0 <= j < r.value ==> !Matches(names[j], keywords)
    ensures r.None? <==> forall j :: 0 <= j < |names| ==> !Matches(names[j], keywords)
  {
    if names == [] then None
    else if Matches(names[0], keywords) then Some(0)
    else match FirstMatch(names[1..], keywords)
      case None => None
      case Some(i) => Some(i + 1)
  }

  /** pick_file: walk the uploads in order and return the first whose
      lower-cased name contains any keyword. */
  method PickFile(names: seq<string>, keywords: seq<string>) returns (r: Option<nat>)
    ensures r == FirstMatch(names, keywords)
  {
    for i := 0 to |names|
      invariant forall j :: 0 <= j < i ==> !Matches(names[j], keywords)
    {
      var name := Lower(names[i]);
      if AnyKeyword(name, keywords) {
        return Some(i);
      }
    }
    return None;
  }

  /** The keyword pick of one role: the first upload whose name matches one
      of the role's keywords, or None when none does. */
  function Pick(names: seq<string>, role: Role): (r: Option<nat>)
    ensures r.Some? ==> r.value < |names| && Matches(names[r.value], Keywords(role))
    ensures r.Some? ==> forall j :: 0 <= j < r.value ==> !Matches(names[j], Keywords(role))
    ensures r.None? <==> forall j :: 0 <= j < |names| ==> !Matches(names[j], Keywords(role))
  {
    FirstMatch(names, Keywords(role))
  }

  /** Whether a file name matches depends only on the name's lower-cased
      form: the search does not tell ASCII capitals and small letters apart. */
  lemma {:induction false} FirstMatchIgnoresCase(names: seq<string>, names': seq<string>, keywords: seq<string>)
    requires |names| == |names'|
    requires forall i :: 0 <= i < |names| ==> Lower(names[i]) == Lower(names'[i])
    ensures FirstMatch(names, keywords) == FirstMatch(names', keywords)
  {
    if names != [] {
      FirstMatchIgnoresCase(names[1..], names'[1..], keywords);
    }
  }

  /** A name matches a list of lower-case keywords exactly when it spells one
      of them somewhere, in any mix of capitals and small letters. */
  lemma MatchesMeansCaseInsensitiveOccurrence(name: string, role: Role)
    ensures Matches(name, Keywords(role)) <==>
      exists j, i: nat :: 0 <= j < |Keywords(role)| && OccursIgnoringCase(name, Keywords(role)[j], i)
  {
    var ks := Keywords(role);
    forall j | 0 <= j < |ks|
      ensures Contains(Lower(name), ks[j]) <==> exists i: nat :: OccursIgnoringCase(name, ks[j], i)
    {
      ContainsLowerIgnoresCase(name, ks[j]);
    }
  }

  // ---------------------------------------------------------------------------
  // Positional fallback
  // ---------------------------------------------------------------------------

  /** A keyword pick among three uploads. */
  predicate ValidPick(p: Option<nat>) {
    p.Some? ==> p.value < RequiredCount
  }

  /** `[f for f in uploaded_files if f not in excluded]`: the upload positions
      below `n`, in upload order, that are not among the excluded picks. */
  function Unclaimed(n: nat, excluded: seq<Option<int>>): (r: seq<nat>)
    ensures forall i: nat :: i in r <==> i < n && Some(i) !in excluded
    ensures forall p, q :: 0 <= p < q < |r| ==> r[p] < r[q]
  {
    if n == 0 then []
    else
      var front := Unclaimed(n - 1, excluded);
      forall p | 0 <= p < |front| ensures front[p] < n - 1 {
        assert front[p] in front;
      }
      front + (if Some(n - 1) in excluded then [] else [n - 1])
  }

  /** The first of three uploads, in upload order, that is none of the (at
      most two) claimed ones. */
  function FirstFree(claimed: seq<Option<int>>): (i: nat)
    requires |claimed| <= 2
    ensures i < RequiredCount && Some(i) !in claimed
    ensures forall j :: 0 <= j < i ==> Some(j) in claimed
  {
    if Some(0) !in claimed then 0
    else if Some(1) !in claimed then 1
    else
      assert claimed == [claimed[0], claimed[1]];
      2
  }

  /** With three uploads and at most two of them excluded, the filtered list
      is never empty, and its head is the first free upload. */
  lemma UnclaimedStartsAtFirstFree(excluded: seq<Option<int>>, claimed: seq<Option<int>>)
    requires |claimed| <= 2
    requires forall i: nat :: Some(i) in excluded <==> Some(i) in claimed
    ensures Unclaimed(RequiredCount, excluded) != []
    ensures Unclaimed(RequiredCount, excluded)[0] == FirstFree(claimed)
  {
    var r := Unclaimed(RequiredCount, excluded);
    var f := FirstFree(claimed);
    assert f in r;
    var k :| 0 <= k < |r| && r[k] == f;
    assert r[0] <= f;
    assert r[0] in r;
  }

  /** The reference assignment: a role found by keyword keeps its pick; a role
      left without one takes the first upload, in upload order, that none of
      the other roles holds at that moment. Roles are filled in the order
      data, MMA, third. */
  function Complete(kd: Option<nat>, km: Option<nat>, k3: Option<nat>): (a: Assignment)
    requires ValidPick(kd) && ValidPick(km) && ValidPick(k3)
    ensures a.data < RequiredCount && a.mma < RequiredCount && a.third < RequiredCount
    ensures kd.Some? ==> a.data == kd.value
    ensures km.Some? ==> a.mma == km.value
    ensures k3.Some? ==> a.third == k3.value
    ensures kd.None? ==> a.data != a.mma && a.data != a.third
    ensures km.None? ==> a.mma != a.data && a.mma != a.third
    ensures k3.None? ==> a.third != a.data && a.third != a.mma
  {
    var data := Choose(kd, [km, k3]);
    var mma := Choose(km, [Some(data), k3]);
    var third := Choose(k3, [Some(data), Some(mma)]);
    Assignment(data, mma, third)
  }

  /** One role's upload: its keyword pick if it has one, else the first upload
      none of the claimed ones holds. */
  function Choose(pick: Option<nat>, claimed: seq<Option<int>>): nat
    requires ValidPick(pick) && |claimed| <= 2
  {
    if pick.Some? then pick.value else FirstFree(claimed)
  }

  /** The fallback block: each role still None takes the head of the list of
      uploads not held by any role, rebuilt before each use. */
  method Fallback(n: nat, kd: Option<nat>, km: Option<nat>, k3: Option<nat>) returns (a: Assignment)
    requires n == RequiredCount
    requires ValidPick(kd) && ValidPick(km) && ValidPick(k3)
    ensures a == Complete(kd, km, k3)
  {
    // Positions are held as int so that the unreachable `else` branches,
    // which name a fixed upload, carry no proof obligation of their own.
    var fileData: Option<int>, fileMma: Option<int>, file3: Option<int> := kd, km, k3;
    var remaining := Unclaimed(n, [fileData, fileMma, file3]);
    if fileData.None? {
      UnclaimedStartsAtFirstFree([fileData, fileMma, file3], [km, k3]);
      if remaining != [] {
        fileData := Some(remaining[0]);
        remaining := remaining[1..];
      } else {
        fileData := Some(0);
      }
    }
    ghost var data := Choose(kd, [km, k3]);
    assert fileData == Some(data);
    if fileMma.None? {
      remaining := Unclaimed(n, [fileData, fileMma, file3]);
      UnclaimedStartsAtFirstFree([fileData, fileMma, file3], [fileData, k3]);
      if remaining != [] {
        fileMma := Some(remaining[0]);
        remaining := remaining[1..];
      } else {
        fileMma := Some(1);
      }
    }
    ghost var mma := Choose(km, [Some(data), k3]);
    assert fileMma == Some(mma);
    if file3.None? {
      remaining := Unclaimed(n, [fileData, fileMma]);
      UnclaimedStartsAtFirstFree([fileData, fileMma], [fileData, fileMma]);
      if remaining != [] {
        file3 := Some(remaining[0]);
      } else {
        file3 := Some(2);
      }
    }
    assert file3 == Some(Choose(k3, [Some(data), Some(mma)]));
    a := Assignment(fileData.value, fileMma.value, file3.value);
  }

  // ---------------------------------------------------------------------------
  // The whole upload step
  // ---------------------------------------------------------------------------

  /** The roles of three uploads, given their names in upload order. */
  function Assign(names: seq<string>): (a: Assignment)
    requires |names| == RequiredCount
    ensures a.data < RequiredCount && a.mma < RequiredCount && a.third < RequiredCount
    ensures Pick(names, Data).Some? ==> a.data == Pick(names, Data).value
    ensures Pick(names, Mma).Some? ==> a.mma == Pick(names, Mma).value
    ensures Pick(names, Third).Some? ==> a.third == Pick(names, Third).value
    ensures Pick(names, Data).None? ==> a.data != a.mma && a.data != a.third
    ensures Pick(names, Mma).None? ==> a.mma != a.data && a.mma != a.third
    ensures Pick(names, Third).None? ==> a.third != a.data && a.third != a.mma
  {
    Complete(Pick(names, Data), Pick(names, Mma), Pick(names, Third))
  }

  /** The count gate followed by the assignment. */
  function Resolve(names: seq<string>): (o: Outcome)
    ensures o.NothingUploaded? <==> |names| == 0
    ensures o.Resolved? <==> |names| == RequiredCount
    ensures o.WrongCount? ==> o.count == |names|
    ensures o.Resolved? ==> o.assignment == Assign(names)
  {
    if |names| == 0 then NothingUploaded
    else if |names| != RequiredCount then WrongCount(|names|)
    else Resolved(Assign(names))
  }

  /** The upload step of the page: stop unless exactly three files were
      uploaded, search each role's keywords, then fill the gaps. */
  method ResolveUploads(names: seq<string>) returns (o: Outcome)
    ensures o == Resolve(names)
  {
    if |names| == 0 {
      return NothingUploaded;
    }
    if |names| != RequiredCount {
      return WrongCount(|names|);
    }
    var fileData := PickFile(names, Keywords(Data));
    var fileMma := PickFile(names, Keywords(Mma));
    var file3 := PickFile(names, Keywords(Third));
    var a := Fallback(|names|, fileData, fileMma, file3);
    return Resolved(a);
  }

  // ---------------------------------------------------------------------------
  // Properties of the assignment
  // ---------------------------------------------------------------------------

  /** No two roles share an upload. */
  predicate AllDistinct(a: Assignment) {
    a.data != a.mma && a.data != a.third && a.mma != a.third
  }

  /** Two keyword picks landed on the same upload. */
  predicate PicksOverlap(kd: Option<nat>, km: Option<nat>, k3: Option<nat>) {
    (kd.Some? && kd == km) || (kd.Some? && kd == k3) || (km.Some? && km == k3)
  }

  /** The three roles get three different uploads exactly when no two keyword
      picks landed on the same upload; in that case every upload is read. */
  lemma DistinctIffPicksDistinct(kd: Option<nat>, km: Option<nat>, k3: Option<nat>)
    requires ValidPick(kd) && ValidPick(km) && ValidPick(k3)
    ensures AllDistinct(Complete(kd, km, k3)) <==> !PicksOverlap(kd, km, k3)
    ensures AllDistinct(Complete(kd, km, k3)) ==>
      {Complete(kd, km, k3).data, Complete(kd, km, k3).mma, Complete(kd, km, k3).third} == {0, 1, 2}
  {
    var a := Complete(kd, km, k3);
    if AllDistinct(a) {
      assert a.data in {0, 1, 2} && a.mma in {0, 1, 2} && a.third in {0, 1, 2};
    }
  }

  /** When no name contains any keyword the roles follow upload order. */
  lemma NoKeywordIsPositional(names: seq<string>)
    requires |names| == RequiredCount
    requires forall i, role :: 0 <= i < |names| ==> !Matches(names[i], Keywords(role))
    ensures Assign(names) == Assignment(0, 1, 2)
  {
  }

  /** The keyword picks are independent: the first upload, if its name
      matches both the data and the MMA keywords, is both the data and the MMA
      workbook, and then one of the three uploads is not read at all. */
  lemma SharedUploadTakesTwoRoles(names: seq<string>)
    requires |names| == RequiredCount
    requires Matches(names[0], Keywords(Data)) && Matches(names[0], Keywords(Mma))
    requires !Matches(names[0], Keywords(Third))
    ensures Assign(names).data == 0 && Assign(names).mma == 0 && Assign(names).third != 0
    ensures |{Assign(names).data, Assign(names).mma, Assign(names).third}| == 2
  {
    assert Pick(names, Data) == Some(0) && Pick(names, Mma) == Some(0);
    assert Pick(names, Third) != Some(0);
    var a := Assign(names);
    assert a.data == 0 && a.mma == 0 && a.third != 0;
    TwoUploadsRead(a);
  }

  /** Two roles on one upload and the third on another: two uploads are read. */
  lemma TwoUploadsRead(a: Assignment)
    requires a.data == a.mma && a.third != a.data
    ensures |{a.data, a.mma, a.third}| == 2
  {
    assert {a.data, a.mma, a.third} == {a.data, a.third};
  }

  /** Renaming uploads by changing only the case of ASCII letters changes
      nothing. */
  lemma AssignIgnoresCase(names: seq<string>, names': seq<string>)
    requires |names| == |names'| == RequiredCount
    requires forall i :: 0 <= i < |names| ==> Lower(names[i]) == Lower(names'[i])
    ensures Assign(names) == Assign(names')
  {
    FirstMatchIgnoresCase(names, names', Keywords(Data));
    FirstMatchIgnoresCase(names, names', Keywords(Mma));
    FirstMatchIgnoresCase(names, names', Keywords(Third));
  }
}
