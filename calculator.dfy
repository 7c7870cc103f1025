/** The integer calculator: an on/off switch, folds over the entered numbers,
    prompted input of numbers and of an operator, and the driver that picks
    the fold. The input stream is a sequence of lines; Python's `int()` on a
    line is the parameter `parse` (None where it raises). */
module Calculator {
  import opened Seqs

  /** The left-to-right product of a list. */
  function Product(s: seq<int>): int
  {
    if s == [] then 1 else Product(s[..|s| - 1]) * s[|s| - 1]
  }

  lemma {:induction false} ProductAppend(s: seq<int>, t: seq<int>)
    ensures Product(s + t) == Product(s) * Product(t)
    decreases |t|
  {
    if t == [] {
      assert s + t == s;
    } else {
      assert (s + t)[..|s + t| - 1] == s + t[..|t| - 1];
      ProductAppend(s, t[..|t| - 1]);
    }
  }

  /** A zero anywhere in the list makes the product zero. */
  lemma {:induction false} ProductWithZero(s: seq<int>)
    requires 0 in s
    ensures Product(s) == 0
    decreases |s|
  {
    if s[|s| - 1] != 0 {
      assert 0 in s[..|s| - 1] by {
        var k :| 0 <= k < |s| && s[k] == 0;
        assert s[..|s| - 1][k] == 0;
      }
      ProductWithZero(s[..|s| - 1]);
    }
  }

  /** The left-to-right quotient `s[0] / s[1] / ...` of Python's true
      division, exact over the reals; defined when no divisor is zero. */
  function Quotient(s: seq<int>): real
    requires s != [] && 0 !in s[1..]
  {
    if |s| == 1 then s[0] as real
    else
      assert s[..|s| - 1][1..] == s[1..][..|s| - 2];
      assert s[|s| - 1] == s[1..][|s| - 2];
      Quotient(s[..|s| - 1]) / (s[|s| - 1] as real)
  }

  /** Dividing by every later number and multiplying back by their product
      gives the first number again. */
  lemma {:induction false} QuotientTimesDivisors(s: seq<int>)
    requires s != [] && 0 !in s[1..]
    ensures Quotient(s) * (Product(s[1..]) as real) == s[0] as real
    decreases |s|
  {
    if |s| == 1 {
      assert s[1..] == [];
    } else {
      var p, x := s[..|s| - 1], s[|s| - 1];
      assert s[1..][|s| - 2] == x;
      assert x != 0;
      assert p[1..] == s[1..][..|s| - 2];
      QuotientTimesDivisors(p);
      assert s[1..][..|s[1..]| - 1] == p[1..];
      var m := Product(p[1..]);
      assert Product(s[1..]) == m * x;
      assert (m * x) as real == (m as real) * (x as real);
      assert Quotient(s) == Quotient(p) / (x as real);
      CancelDivisor(Quotient(p), m as real, x as real);
    }
  }

  /** Dividing by `x` and multiplying by `m * x` is multiplying by `m`. */
  lemma CancelDivisor(q: real, m: real, x: real)
    requires x != 0.0
    ensures (q / x) * (m * x) == q * m
  {
    calc {
      (q / x) * (m * x);
      ((q / x) * x) * m;
      q * m;
    }
  }

  /** One more division step of the quotient's prefix. */
  lemma DivideStep(numbers: seq<int>, x: nat)
    requires 1 <= x < |numbers| && 0 !in numbers[..x][1..] && numbers[x] != 0
    ensures 0 !in numbers[..x + 1][1..]
    ensures Quotient(numbers[..x + 1]) == Quotient(numbers[..x]) / numbers[x] as real
  {
    assert numbers[..x + 1][..x] == numbers[..x];
    assert numbers[..x + 1][1..] == numbers[..x][1..] + [numbers[x]];
  }

  /** The number prompt from position `pos` on, `want` telling whether a
      number or a continue decision is asked for and `acc` holding the
      numbers entered so far: a line `int()` accepts is appended and the
      decision is asked for, any other line asks for a number again; "Y" asks
      for a number, "N" returns the list, any other decision is asked again.
      The result is the list (None when the lines run out) and the number of
      lines read. */
  function Typed(lines: seq<string>, parse: string -> Option<int>, want: bool, acc: seq<int>, pos: nat)
    : (Option<seq<int>>, nat)
    requires pos <= |lines|
    decreases |lines| - pos
  {
    if pos == |lines| then (None, |lines|)
    else if want then
      match parse(lines[pos])
      case Some(n) => Typed(lines, parse, false, acc + [n], pos + 1)
      case None => Typed(lines, parse, true, acc, pos + 1)
    else if lines[pos] == "Y" then Typed(lines, parse, true, acc, pos + 1)
    else if lines[pos] == "N" then (Some(acc), pos + 1)
    else Typed(lines, parse, false, acc, pos + 1)
  }

  /** What a switched-on `input_numbers` returns on the given lines, and how
      many of them it reads. */
  function NumbersTyped(lines: seq<string>, parse: string -> Option<int>): (Option<seq<int>>, nat)
  {
    Typed(lines, parse, true, [], 0)
  }

  /** A number typed where the continue decision is asked for is not a
      number: "1", "2", "N" enters only 1. */
  lemma DecisionIsNotANumber()
    ensures NumbersTyped(["1", "2", "N"], s => if s == "1" then Some(1) else if s == "2" then Some(2) else None)
      == (Some([1]), 3)
  {
    var parse := s => if s == "1" then Some(1) else if s == "2" then Some(2) else None;
    var lines := ["1", "2", "N"];
    assert parse(lines[0]) == Some(1);
    assert lines[1] != "Y" && lines[1] != "N" && lines[2] == "N";
    assert [] + [1] == [1];
    calc {
      NumbersTyped(lines, parse);
      Typed(lines, parse, false, [1], 1);
      Typed(lines, parse, false, [1], 2);
      (Some([1]), 3);
    }
  }

  predicate IsOperator(s: string)
  {
    s == "+" || s == "-" || s == "*" || s == "/"
  }

  class IntegerCalculator {
    var switchedOn: bool

    constructor ()
      ensures !switchedOn
    {
      switchedOn := false;
    }

    method SwitchOn()
      modifies this
      ensures switchedOn
    {
      switchedOn := true;
    }

    method SwitchOff()
      modifies this
      ensures !switchedOn
    {
      switchedOn := false;
    }

    /** `sum(list_of_numbers)`. */
    method AddNumbers(numbers: seq<int>) returns (result: int)
      ensures result == SumInts(numbers)
    {
      result := SumInts(numbers);
    }

    /** The first number minus all the others; an empty list raises IndexError. */
    method SubtractNumbers(numbers: seq<int>) returns (r: Result<int>)
      ensures r.Failure? <==> numbers == []
      ensures r.Failure? ==> r.error == IndexError
      ensures r.Success? ==> r.value == numbers[0] - SumInts(numbers[1..])
    {
      if numbers == [] {
        return Failure(IndexError);
      }
      var result := numbers[0];
      for x := 1 to |numbers|
        invariant result == numbers[0] - SumInts(numbers[1..x])
      {
        assert numbers[1..x + 1][..x - 1] == numbers[1..x];
        result := result - numbers[x];
      }
      assert numbers[1..|numbers|] == numbers[1..];
      return Success(result);
    }

    /** The left-to-right product; an empty list raises IndexError. */
    method MultiplyNumbers(numbers: seq<int>) returns (r: Result<int>)
      ensures r.Failure? <==> numbers == []
      ensures r.Failure? ==> r.error == IndexError
      ensures r.Success? ==> r.value == Product(numbers)
    {
      if numbers == [] {
        return Failure(IndexError);
      }
      var result := numbers[0];
      assert numbers[..1][..0] == [];
      for x := 1 to |numbers|
        invariant result == Product(numbers[..x])
      {
        assert numbers[..x + 1][..x] == numbers[..x];
        result := result * numbers[x];
      }
      assert numbers[..|numbers|] == numbers;
      return Success(result);
    }

    /** The left-to-right true division: an empty list raises IndexError,
        a zero among the divisors ZeroDivisionError; otherwise the quotient. */
    method DivideNumbers(numbers: seq<int>) returns (r: Result<real>)
      ensures r.Failure? <==> numbers == [] || 0 in numbers[1..]
      ensures r.Failure? ==> r.error == (if numbers == [] then IndexError else ZeroDivisionError)
      ensures r.Success? ==> r.value == Quotient(numbers)
    {
      if numbers == [] {
        return Failure(IndexError);
      }
      var result := numbers[0] as real;
      for x := 1 to |numbers|
        invariant 0 !in numbers[..x][1..]
        invariant result == Quotient(numbers[..x])
      {
        if numbers[x] == 0 {
          assert numbers[1..][x - 1] == 0;
          return Failure(ZeroDivisionError);
        }
        DivideStep(numbers, x);
        result := result / numbers[x] as real;
      }
      assert numbers[..|numbers|] == numbers;
      return Success(result);
    }

    /** The number prompt: when off, [] without reading anything; when on,
        a number is asked for until `int()` accepts the line, then a
        continue decision until "Y" (ask for another number) or "N" (return
        the list). `used` lines are read; None when the lines run out. */
    method InputNumbers(lines: seq<string>, parse: string -> Option<int>) returns (r: Option<seq<int>>, used: nat)
      ensures used <= |lines|
      ensures !switchedOn ==> r == Some([]) && used == 0
      ensures switchedOn && r.Some? ==> |r.value| >= 1 && used >= 1 && lines[used - 1] == "N"
      ensures r.Some? ==> forall k :: 0 <= k < |r.value| ==>
        exists j :: 0 <= j < used && parse(lines[j]) == Some(r.value[k])
      ensures r.None? ==> used == |lines|
      ensures switchedOn ==> (r, used) == NumbersTyped(lines, parse)
    {
      if !switchedOn {
        return Some([]), 0;
      }
      var inputs: seq<int> := [];
      var wantNumber := true;
      used := 0;
      while used < |lines|
        invariant used <= |lines|
        invariant !wantNumber ==> |inputs| >= 1
        invariant forall k :: 0 <= k < |inputs| ==> exists j :: 0 <= j < used && parse(lines[j]) == Some(inputs[k])
        invariant Typed(lines, parse, wantNumber, inputs, used) == NumbersTyped(lines, parse)
      {
        var line := lines[used];
        used := used + 1;
        if wantNumber {
          var n := parse(line);
          if n.Some? {
            inputs := inputs + [n.value];
            wantNumber := false;
          }
        } else if line == "Y" {
          wantNumber := true;
        } else if line == "N" {
          return Some(inputs), used;
        }
      }
      return None, used;
    }

    /** The operator prompt: when off, "ERR" without reading anything; when
        on, lines are read until one is "+", "-", "*" or "/", which is
        returned. None when the lines run out. */
    method InputOperator(lines: seq<string>) returns (op: Option<string>, used: nat)
      ensures used <= |lines|
      ensures !switchedOn ==> op == Some("ERR") && used == 0
      ensures switchedOn && op.Some? ==> (used >= 1 && op.value == lines[used - 1] && IsOperator(op.value)
        && forall j :: 0 <= j < used - 1 ==> !IsOperator(lines[j]))
      ensures switchedOn && op.None? ==> used == |lines| && forall j :: 0 <= j < |lines| ==> !IsOperator(lines[j])
      ensures op.Some? || switchedOn
    {
      if !switchedOn {
        return Some("ERR"), 0;
      }
      used := 0;
      while used < |lines|
        invariant used <= |lines|
        invariant forall j :: 0 <= j < used ==> !IsOperator(lines[j])
      {
        var selected := lines[used];
        used := used + 1;
        if IsOperator(selected) {
          return Some(selected), used;
        }
      }
      return None, used;
    }
  }

  /** What the script ends with. */
  datatype Outcome =
    | OnlyOneNumber
    | Answer(value: int)
    | RealAnswer(quotient: real)  // true division's float, as an exact real
    | Raised(error: PyError)
    | InputEnded               // the lines ran out while a prompt was waiting

  /** The driver: switch on, read numbers then an operator from one stream
      of lines, and compute only when more than one number was entered. The
      numbers are those of the number prompt; division raises
      ZeroDivisionError exactly when a later number is zero. As the
      calculator is on, the operator is never "ERR", so the unbound `answer`
      of the fall-through branch is never printed. */
  method RunScript(lines: seq<string>, parse: string -> Option<int>) returns (out: Outcome, nums: seq<int>, op: string)
    ensures out == InputEnded <==> (NumbersTyped(lines, parse).0.None?
      || forall j :: NumbersTyped(lines, parse).1 <= j < |lines| ==> !IsOperator(lines[j]))
    ensures out != InputEnded ==> NumbersTyped(lines, parse).0 == Some(nums) && IsOperator(op)
    ensures out == OnlyOneNumber <==> out != InputEnded && |nums| <= 1
    ensures out.Raised? <==> op == "/" && |nums| > 1 && 0 in nums[1..]
    ensures out.Raised? ==> out.error == ZeroDivisionError
    ensures out.Answer? <==> out != InputEnded && |nums| > 1 && op != "/"
    ensures out.Answer? && op == "+" ==> out.value == SumInts(nums)
    ensures out.Answer? && op == "-" ==> out.value == nums[0] - SumInts(nums[1..])
    ensures out.Answer? && op == "*" ==> out.value == Product(nums)
    ensures out.RealAnswer? ==> op == "/" && |nums| > 1 && 0 !in nums[1..] && out.quotient == Quotient(nums)
  {
    var machine := new IntegerCalculator();
    machine.SwitchOn();
    var entered, used := machine.InputNumbers(lines, parse);
    nums, op := [], "";
    if entered.None? {
      return InputEnded, nums, op;
    }
    nums := entered.value;
    var chosen, _ := machine.InputOperator(lines[used..]);
    if chosen.None? {
      forall j | used <= j < |lines|
        ensures !IsOperator(lines[j])
      {
        assert lines[used..][j - used] == lines[j];
      }
      return InputEnded, nums, op;
    }
    op := chosen.value;
    if |nums| > 1 {
      if op == "+" {
        var a := machine.AddNumbers(nums);
        out := Answer(a);
      } else if op == "-" {
        var a := machine.SubtractNumbers(nums);
        out := Answer(a.value);
      } else if op == "*" {
        var a := machine.MultiplyNumbers(nums);
        out := Answer(a.value);
      } else if op == "/" {
        var a := machine.DivideNumbers(nums);
        out := if a.Success? then RealAnswer(a.value) else Raised(a.error);
      } else {
        out := Raised(NameError);
      }
    } else {
      out := OnlyOneNumber;
    }
  }
}
