/** The patient-records summary: each CSV row gives a name, a gender, an age
    and a county; the script counts the records, averages the ages, counts
    the three counties and the two genders, splits the genders into
    percentages and writes a header row and a results row. Python's `int()`
    on the age cell is the parameter `parse` (None where it raises). */
module PatientSummary {
  import opened Seqs

  /** The four column lists built while reading. */
  datatype Columns = Columns(names: seq<string>, genders: seq<string>, ages: seq<int>, counties: seq<string>)

  /** The error reading one row raises, in the order the cells are read:
      `row[0]`, `row[1]`, `int(row[2])`, `row[3]`. */
  function RowError(row: seq<string>, parse: string -> Option<int>): (e: Option<PyError>)
    ensures e.None? <==> |row| >= 4 && parse(row[2]).Some?
  {
    if |row| < 3 then Some(IndexError)
    else if parse(row[2]).None? then Some(ValueError)
    else if |row| < 4 then Some(IndexError)
    else None
  }

  /** The reading loop: one entry per row in every list, or the error of the
      first row that cannot be read. */
  method ReadRecords(rows: seq<seq<string>>, parse: string -> Option<int>) returns (r: Result<Columns>)
    ensures r.Failure? <==> exists i :: 0 <= i < |rows| && RowError(rows[i], parse).Some?
    ensures r.Failure? ==> exists i :: (0 <= i < |rows| && RowError(rows[i], parse) == Some(r.error)
      && forall j :: 0 <= j < i ==> RowError(rows[j], parse).None?)
    ensures r.Success? ==> var c := r.value;
      |c.names| == |rows| && |c.genders| == |rows| && |c.ages| == |rows| && |c.counties| == |rows|
      && forall i :: 0 <= i < |rows| ==> (c.names[i] == rows[i][0] && c.genders[i] == rows[i][1]
        && Some(c.ages[i]) == parse(rows[i][2]) && c.counties[i] == rows[i][3])
  {
    var names, genders, ages, counties := [], [], [], [];
    for i := 0 to |rows|
      invariant |names| == i && |genders| == i && |ages| == i && |counties| == i
      invariant forall j :: 0 <= j < i ==> (RowError(rows[j], parse).None?
        && names[j] == rows[j][0] && genders[j] == rows[j][1]
        && Some(ages[j]) == parse(rows[j][2]) && counties[j] == rows[j][3])
    {
      var row := rows[i];
      var e := RowError(row, parse);
      if e.Some? {
        return Failure(e.value);
      }
      names := names + [row[0]];
      genders := genders + [row[1]];
      ages := ages + [parse(row[2]).value];
      counties := counties + [row[3]];
    }
    return Success(Columns(names, genders, ages, counties));
  }

  /** The county loop: only the exact strings are counted. */
  method CountCounties(counties: seq<string>) returns (cornwall: nat, devon: nat, somerset: nat)
    ensures cornwall == Count(counties, "Cornwall") && devon == Count(counties, "Devon")
      && somerset == Count(counties, "Somerset")
    ensures cornwall + devon + somerset <= |counties|
  {
    cornwall, devon, somerset := 0, 0, 0;
    for i := 0 to |counties|
      invariant cornwall == Count(counties[..i], "Cornwall") && devon == Count(counties[..i], "Devon")
        && somerset == Count(counties[..i], "Somerset")
    {
      assert counties[..i + 1][..i] == counties[..i];
      var county := counties[i];
      if county == "Cornwall" {
        cornwall := cornwall + 1;
      } else if county == "Devon" {
        devon := devon + 1;
      } else if county == "Somerset" {
        somerset := somerset + 1;
      }
    }
    assert counties[..|counties|] == counties;
    CountsOfThree(counties, "Cornwall", "Devon", "Somerset");
  }

  /** The gender loop: only "MALE" and "FEMALE" are counted. */
  method CountGenders(genders: seq<string>) returns (male: nat, female: nat)
    ensures male == Count(genders, "MALE") && female == Count(genders, "FEMALE")
    ensures male + female <= |genders|
  {
    male, female := 0, 0;
    for i := 0 to |genders|
      invariant male == Count(genders[..i], "MALE") && female == Count(genders[..i], "FEMALE")
    {
      assert genders[..i + 1][..i] == genders[..i];
      if genders[i] == "MALE" {
        male := male + 1;
      } else if genders[i] == "FEMALE" {
        female := female + 1;
      }
    }
    assert genders[..|genders|] == genders;
    CountsOfThree(genders, "MALE", "FEMALE", "");
  }

  /** Occurrences of three different values never exceed the length. */
  lemma {:induction false} CountsOfThree(s: seq<string>, a: string, b: string, c: string)
    requires a != b && b != c && a != c
    ensures Count(s, a) + Count(s, b) + Count(s, c) <= |s|
    decreases |s|
  {
    if s != [] {
      CountsOfThree(s[..|s| - 1], a, b, c);
    }
  }

  /** `percentage_male` and `percentage_female = 100 - percentage_male`,
      before rounding; no MALE or FEMALE row divides by zero. */
  function PercentSplit(male: nat, female: nat): (r: Result<(real, real)>)
    ensures r.Failure? <==> male + female == 0
    ensures r.Failure? ==> r.error == ZeroDivisionError
    ensures r.Success? ==> (0.0 <= r.value.0 <= 100.0 && r.value.0 + r.value.1 == 100.0
      && (r.value.0 == 100.0 <==> female == 0) && (r.value.0 == 0.0 <==> male == 0))
  {
    if male + female == 0 then Failure(ZeroDivisionError)
    else
      var pm := (male as real / (male + female) as real) * 100.0;
      assert male as real <= (male + female) as real;
      Success((pm, 100.0 - pm))
  }

  /** A results-row cell: a count or a (here exact) decimal. */
  datatype Cell = IntCell(n: int) | RealCell(x: real)

  const Header: seq<string> := ["Number of Records", "Mean Age", "No. in Cornwall", "No. in Devon",
                                "No. in Somerset", "% Male", "% Female"]

  /** The summary written to the results file: the header and one results
      row, field for field; an empty file divides by zero at the mean age,
      and a file with no MALE or FEMALE row at the percentage split. */
  method Summarise(c: Columns) returns (r: Result<(seq<string>, seq<Cell>)>)
    requires |c.genders| == |c.names| && |c.ages| == |c.names| && |c.counties| == |c.names|
    ensures r.Failure? <==> c.names == [] || Count(c.genders, "MALE") + Count(c.genders, "FEMALE") == 0
    ensures r.Failure? ==> r.error == ZeroDivisionError
    ensures r.Success? ==> var split := PercentSplit(Count(c.genders, "MALE"), Count(c.genders, "FEMALE"));
      r.value.0 == Header
      && r.value.1 == [IntCell(|c.names|),
                       RealCell(SumInts(c.ages) as real / |c.ages| as real),
                       IntCell(Count(c.counties, "Cornwall")), IntCell(Count(c.counties, "Devon")),
                       IntCell(Count(c.counties, "Somerset")),
                       RealCell(split.value.0), RealCell(split.value.1)]
  {
    var numberOfRecords := |c.names|;
    if |c.ages| == 0 {
      return Failure(ZeroDivisionError);
    }
    var averageAge := SumInts(c.ages) as real / |c.ages| as real;
    var cornwall, devon, somerset := CountCounties(c.counties);
    var male, female := CountGenders(c.genders);
    var split := PercentSplit(male, female);
    if split.Failure? {
      return Failure(split.error);
    }
    var results := [IntCell(numberOfRecords), RealCell(averageAge), IntCell(cornwall), IntCell(devon),
                    IntCell(somerset), RealCell(split.value.0), RealCell(split.value.1)];
    return Success((Header, results));
  }
}
