/** Shared vocabulary: optional values, results and the crate's error kinds. */
module Basics {

  datatype Option<+T> = None | Some(value: T)

  /** The error kinds of src/error.rs. Only `Conflict` is ever treated apart from the rest. */
  datatype Error =
    | Chain(text: string)
    | Store(text: string)
    | Crypto(text: string)
    | Config(text: string)
    | InvalidTransition(text: string)
    | NotFound(text: string)
    | Conflict(text: string)
    | Insufficient(text: string)
    | EventMissing(text: string)

  datatype Result<+T> = Ok(value: T) | Err(error: Error) {
    predicate IsFailure() {
      Err?
    }

    function PropagateFailure<U>(): Result<U>
      requires Err?
    {
      Err(error)
    }

    function Extract(): T
      requires Ok?
    {
      value
    }
  }

  const U64_MAX: nat := 0xFFFF_FFFF_FFFF_FFFF
  const I64_MAX: nat := 0x7FFF_FFFF_FFFF_FFFF
  const U128_MAX: nat := 0xFFFF_FFFF_FFFF_FFFF_FFFF_FFFF_FFFF_FFFF

  function Min(a: int, b: int): int {
    if a < b then a else b
  }

  function Max(a: int, b: int): int {
    if a < b then b else a
  }

  function Sum(xs: seq<nat>): nat {
    if xs == [] then 0 else Sum(xs[..|xs| - 1]) + xs[|xs| - 1]
  }

  lemma SumAppend(xs: seq<nat>, x: nat)
    ensures Sum(xs + [x]) == Sum(xs) + x
  {
  }
}

/** Text measured and trimmed the way Rust's `str` does it. */
module Text {
  /** The Unicode White_Space property, which `char::is_whitespace` tests. */
  predicate IsWhitespace(c: char) {
    var n := c as int;
    || 0x9 <= n <= 0xD || n == 0x20 || n == 0x85 || n == 0xA0 || n == 0x1680
    || 0x2000 <= n <= 0x200A || n == 0x2028 || n == 0x2029 || n == 0x202F
    || n == 0x205F || n == 0x3000
  }

  function TrimStart(s: string): string {
    if s != "" && IsWhitespace(s[0]) then TrimStart(s[1..]) else s
  }

  function TrimEnd(s: string): string {
    if s != "" && IsWhitespace(s[|s| - 1]) then TrimEnd(s[..|s| - 1]) else s
  }

  function Trim(s: string): string {
    TrimEnd(TrimStart(s))
  }

  lemma {:induction false} TrimStartBlank(s: string)
    ensures TrimStart(s) == "" <==> forall k :: 0 <= k < |s| ==> IsWhitespace(s[k])
    ensures TrimStart(s) != "" ==> !IsWhitespace(TrimStart(s)[0]) && |TrimStart(s)| <= |s|
  {
    if s != "" && IsWhitespace(s[0]) {
      TrimStartBlank(s[1..]);
      forall k | 0 <= k < |s| - 1 ensures s[1..][k] == s[k + 1] {}
      if forall k :: 0 <= k < |s[1..]| ==> IsWhitespace(s[1..][k]) {
        forall k | 0 <= k < |s| ensures IsWhitespace(s[k]) {
          if k > 0 { assert s[1..][k - 1] == s[k]; }
        }
      }
    }
  }

  lemma {:induction false} TrimEndKeepsHead(s: string)
    ensures s != "" && !IsWhitespace(s[0]) ==> TrimEnd(s) != "" && TrimEnd(s)[0] == s[0]
  {
    if |s| > 1 && IsWhitespace(s[|s| - 1]) { TrimEndKeepsHead(s[..|s| - 1]); }
  }

  /** Trimming leaves nothing if and only if the text is all white space. */
  lemma TrimBlank(s: string)
    ensures Trim(s) == "" <==> forall k :: 0 <= k < |s| ==> IsWhitespace(s[k])
  {
    TrimStartBlank(s);
    TrimEndKeepsHead(TrimStart(s));
  }

  /** Bytes of one character in UTF-8. */
  function CharBytes(c: char): nat {
    var n := c as int;
    if n < 0x80 then 1 else if n < 0x800 then 2 else if n < 0x1_0000 then 3 else 4
  }

  /** `str::len`: the length in bytes. */
  function ByteLen(s: string): nat {
    if s == "" then 0 else CharBytes(s[0]) + ByteLen(s[1..])
  }
}

/** Account ids and their SS58 text form. The cryptography behind them is not modelled. */
module Keys {
  import opened Basics

  type AccountId = nat

  /** An SS58 text names an account under some network prefix; other text does not parse. */
  datatype Address = Ss58(account: AccountId, prefix: nat) | Malformed(text: string)

  function ParseSs58(a: Address): Result<AccountId> {
    match a
    case Ss58(id, _) => Ok(id)
    case Malformed(_) => Err(Config("bad ss58 address"))
  }

  /** `ss58`: always written under the generic prefix. */
  function Ss58Of(id: AccountId): Address {
    Ss58(id, 42)
  }

  predicate Canonical(a: Address) {
    a.Ss58? && a.prefix == 42
  }
}
