/** Small shared vocabulary: Go's error results and strconv's decimal text. */
module Common {

  /** One byte of a file or of a response body. */
  type Byte = b: int | 0 <= b < 256

  datatype Option<+T> = None | Some(value: T)

  /** A Go `error` result: nil, or an error carrying its message. */
  datatype Outcome = Pass | Fail(message: string)

  /** A Go `(T, error)` pair in which exactly one side is meaningful. */
  datatype Result<+T> = Ok(value: T) | Err(message: string)

  function Pow10(d: nat): (p: nat)
    ensures p >= 1
  {
    if d == 0 then 1 else 10 * Pow10(d - 1)
  }

  function DigitChar(d: int): char
    requires 0 <= d < 10
  {
    "0123456789"[d]
  }

  /** Decimal digits of a natural number, most significant first. */
  function NatText(n: nat): (s: string)
    ensures 1 <= |s|
  {
    if n < 10 then [DigitChar(n)] else NatText(n / 10) + [DigitChar(n % 10)]
  }

  /** strconv.Itoa and strconv.FormatInt(n, 10): a leading '-' for negative numbers. */
  function Itoa(n: int): (s: string)
    ensures 1 <= |s|
  {
    if n < 0 then "-" + NatText(-n) else NatText(n)
  }

  /** Different digits have different characters. */
  lemma DigitCharInjective(a: int, b: int)
    requires 0 <= a < 10 && 0 <= b < 10 && DigitChar(a) == DigitChar(b)
    ensures a == b
  {
  }

  /** The decimal text of a natural number starts with a digit, never with '-'. */
  lemma {:induction false} NatTextStartsWithDigit(n: nat)
    ensures NatText(n)[0] != '-'
  {
    if n >= 10 {
      NatTextStartsWithDigit(n / 10);
      assert NatText(n)[0] == NatText(n / 10)[0];
    }
  }

  /** Decimal text holds no '/', so it never names a directory level. */
  lemma {:induction false} NatTextNoSlash(n: nat)
    ensures '/' !in NatText(n)
  {
    if n >= 10 {
      NatTextNoSlash(n / 10);
      assert NatText(n) == NatText(n / 10) + [DigitChar(n % 10)];
    }
  }

  /** The same for strconv.Itoa, whose only other character is a leading '-'. */
  lemma ItoaNoSlash(n: int)
    ensures '/' !in Itoa(n)
  {
    if n < 0 {
      NatTextNoSlash(-n);
    } else {
      NatTextNoSlash(n);
    }
  }

  /** The path `p` lies inside one of the directories `dirs`: it starts with one of them and a '/'. */
  predicate InsideAny(dirs: set<string>, p: string)
  {
    exists q :: q in dirs && q + "/" <= p
  }

  /** Different natural numbers have different decimal texts. */
  lemma {:induction false} NatTextInjective(a: nat, b: nat)
    requires NatText(a) == NatText(b)
    ensures a == b
  {
    var s := NatText(a);
    if a < 10 && b < 10 {
      DigitCharInjective(a, b);
    } else if a < 10 || b < 10 {
      // one text has a single digit, the other at least two
    } else {
      assert s[|s| - 1] == DigitChar(a % 10) == DigitChar(b % 10);
      DigitCharInjective(a % 10, b % 10);
      assert s[..|s| - 1] == NatText(a / 10) == NatText(b / 10);
      NatTextInjective(a / 10, b / 10);
    }
  }

  /** strconv.Itoa is injective. */
  lemma ItoaInjective(a: int, b: int)
    requires Itoa(a) == Itoa(b)
    ensures a == b
  {
    if a < 0 && b < 0 {
      assert Itoa(a)[1..] == NatText(-a) && Itoa(b)[1..] == NatText(-b);
      NatTextInjective(-a, -b);
    } else if a < 0 {
      NatTextStartsWithDigit(b);
    } else if b < 0 {
      NatTextStartsWithDigit(a);
    } else {
      NatTextInjective(a, b);
    }
  }

  /** A number at least 10^d has more than d decimal digits. */
  lemma {:induction false} NatTextGrows(n: nat, d: nat)
    requires Pow10(d) <= n
    ensures d < |NatText(n)|
  {
    if d > 0 {
      assert n >= 10;
      assert Pow10(d - 1) <= n / 10;
      NatTextGrows(n / 10, d - 1);
    }
  }

  /**
   * The decimal text of 64, the maximum count of every package, as its error
   * messages spell it with strconv.Itoa.
   */
  const MaxCountText: string := "64"

  /**
   * The closest value to n in [1, max]: what the user-setting setters store when
   * they default an out-of-range count.
   */
  function Clamp(n: int, max: int): (r: int)
    requires max >= 1
    ensures 1 <= r <= max
    ensures 1 <= n <= max ==> r == n
    ensures n > max ==> r == max
    ensures n < 1 ==> r == 1
  {
    if n > max then max else if n < 1 then 1 else n
  }

  /** The set of paths listed in a sequence. */
  function Elements(s: seq<string>): (e: set<string>)
    ensures forall x :: x in e <==> x in s
  {
    set x | x in s
  }

  /** No element occurs twice. */
  predicate Distinct<T(==)>(s: seq<T>)
  {
    forall i, j :: 0 <= i < j < |s| ==> s[i] != s[j]
  }
}
