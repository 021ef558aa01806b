/** Decimal numerals and the lowest free `bondN` endpoint name. */
module BondNames {
  import opened Basics

  // -- decimal numerals -----------------------------------------------------------

  function Digit(d: nat): char
    requires d < 10
  {
    "0123456789"[d]
  }

  predicate IsDigit(c: char) { '0' <= c <= '9' }

  function DigitValue(c: char): nat
    requires IsDigit(c)
  {
    (c - '0') as nat
  }

  function Dec(n: nat): (s: string)
    ensures |s| > 0 && forall c :: c in s ==> IsDigit(c)
  {
    if n < 10 then [Digit(n)] else Dec(n / 10) + [Digit(n % 10)]
  }

  function Number(s: string): nat
    requires forall c :: c in s ==> IsDigit(c)
  {
    if s == [] then 0 else 10 * Number(s[..|s| - 1]) + DigitValue(s[|s| - 1])
  }

  lemma {:induction false} NumberOfDec(n: nat)
    ensures Number(Dec(n)) == n
  {
    if n < 10 {
      assert Dec(n)[..0] == [];
    } else {
      NumberOfDec(n / 10);
      assert Dec(n)[..|Dec(n)| - 1] == Dec(n / 10);
    }
  }

  /** `str(i)`. */
  function Str(i: int): string { if i < 0 then "-" + Dec(-i) else Dec(i) }

  lemma StrInjective(i: int, j: int)
    requires Str(i) == Str(j)
    ensures i == j
  {
    var a, b := Dec(if i < 0 then -i else i), Dec(if j < 0 then -j else j);
    NumberOfDec(if i < 0 then -i else i);
    NumberOfDec(if j < 0 then -j else j);
    assert a[0] in a && b[0] in b;
    if i < 0 && j < 0 {
      assert Str(i)[1..] == a && Str(j)[1..] == b;
    }
  }

  // -- bond names ------------------------------------------------------------------

  /** The number a name matches `^bond(\d+)$` with; `$` also matches before one final newline. */
  function BondNumber(name: string): Option<nat> {
    if |name| < 4 || name[..4] != "bond" then None
    else
      var tail := name[4..];
      var digits := if |tail| > 0 && tail[|tail| - 1] == '\n' then tail[..|tail| - 1] else tail;
      if |digits| > 0 && forall c :: c in digits ==> IsDigit(c) then Some(Number(digits)) else None
  }

  function Bond(i: int): string { "bond" + Str(i) }

  function Taken(names: seq<string>): (r: set<nat>)
  {
    set name | name in names && BondNumber(name).Some? :: BondNumber(name).value
  }

  function LeastFree(taken: set<nat>, from: nat): (n: nat)
    ensures n >= from && n !in taken
    ensures forall k :: from <= k < n ==> k in taken
    decreases |set k | k in taken && k >= from|
  {
    if from in taken then
      assert (set k | k in taken && k >= from) == (set k | k in taken && k >= from + 1) + {from};
      LeastFree(taken, from + 1)
    else from
  }

  /** The name `next_bond_name` returns. */
  function NextBond(names: seq<string>): string { Bond(LeastFree(Taken(names), 0)) }

  lemma OneFewer(taken: set<nat>, number: nat)
    requires number in taken
    ensures |set k | k in taken && k >= number + 1| < |set k | k in taken && k >= number|
  {
    assert (set k | k in taken && k >= number) == (set k | k in taken && k >= number + 1) + {number};
  }

  lemma NoneTaken()
    ensures Taken([]) == {}
  {
  }

  lemma TakenOneMore(names: seq<string>, name: string)
    ensures Taken(names + [name]) == Taken(names) + if BondNumber(name).Some? then {BondNumber(name).value} else {}
  {
    hide BondNumber;
  }

  /** The source's scan: collect the taken numbers, then count up to the first gap. */
  method NextBondName(names: seq<string>) returns (name: string)
    ensures name == NextBond(names)
  {
    hide BondNumber, Bond, Taken;
    var taken: set<nat> := {};
    assert Taken(names[..0]) == {} by { NoneTaken(); }
    for i := 0 to |names|
      invariant taken == Taken(names[..i])
    {
      assert names[..i + 1] == names[..i] + [names[i]];
      TakenOneMore(names[..i], names[i]);
      if BondNumber(names[i]).Some? {
        taken := taken + {BondNumber(names[i]).value};
      }
    }
    assert names[..|names|] == names;
    var number := 0;
    while number in taken
      invariant LeastFree(taken, number) == LeastFree(taken, 0)
      decreases |set k | k in taken && k >= number|
    {
      OneFewer(taken, number);
      number := number + 1;
    }
    name := Bond(number);
  }

  predicate Digits(s: string) { s != "" && forall c :: c in s ==> IsDigit(c) }

  /** A name holds a number exactly when it is `bond` and digits, with or without a line feed at its end. */
  lemma NumberedExactly(name: string)
    ensures BondNumber(name).Some? <==> exists d :: Digits(d) && (name == "bond" + d || name == "bond" + d + "\n")
    ensures forall d :: Digits(d) && (name == "bond" + d || name == "bond" + d + "\n") ==> BondNumber(name) == Some(Number(d))
  {
    forall d | Digits(d) && (name == "bond" + d || name == "bond" + d + "\n") ensures BondNumber(name) == Some(Number(d)) {
      assert name[..4] == "bond" && d[|d| - 1] in d;
      assert name[4..] == if name == "bond" + d then d else d + "\n";
    }
    if BondNumber(name).Some? {
      var tail := name[4..];
      var d := if |tail| > 0 && tail[|tail| - 1] == '\n' then tail[..|tail| - 1] else tail;
      assert Digits(d) && name == name[..4] + tail && (tail == d || tail == d + "\n");
    }
  }

  lemma BondNumberOfBond(n: nat)
    ensures BondNumber(Bond(n)) == Some(n)
  {
    var name := Bond(n);
    assert name[4..] == Dec(n);
    assert Dec(n)[|Dec(n)| - 1] in Dec(n);
    NumberOfDec(n);
  }

  lemma {:induction false} RangeFits(n: nat, taken: set<nat>)
    requires forall k :: 0 <= k < n ==> k in taken
    ensures n <= |taken|
  {
    if n > 0 {
      RangeFits(n - 1, taken - {n - 1});
    }
  }

  lemma {:induction false} TakenIsSmall(names: seq<string>)
    ensures |Taken(names)| <= |names|
  {
    if names != [] {
      var rest := names[1..];
      TakenIsSmall(rest);
      assert names == [names[0]] + rest;
      if BondNumber(names[0]).Some? {
        assert Taken(names) == Taken(rest) + {BondNumber(names[0]).value};
      } else {
        assert Taken(names) == Taken(rest);
      }
    }
  }

  /** Some name in the list is `bondN` for this number. */
  ghost predicate Held(names: seq<string>, number: nat) {
    exists i :: 0 <= i < |names| && BondNumber(names[i]) == Some(number)
  }

  /**
   The name is not among the existing ones, its number is the least that no
   `bondN` holds, and that number is at most how many names there are.
   */
  lemma NextBondIsLeastFree(names: seq<string>)
    ensures NextBond(names) !in names
    ensures exists n: nat ::
      NextBond(names) == Bond(n) && n <= |names| && !Held(names, n) && forall k: nat :: k < n ==> Held(names, k)
  {
    var n := LeastFree(Taken(names), 0);
    BondNumberOfBond(n);
    RangeFits(n, Taken(names));
    TakenIsSmall(names);
    forall k: nat | k < n ensures Held(names, k) {
      assert k in Taken(names);
    }
    assert !Held(names, n);
  }
}
