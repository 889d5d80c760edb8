/** Fresh command ids: `getNextAvailableCommandID` probes `"-1"`, `"-2"`, …
    until it finds a string no registered command uses as its id. */
module IdAllocation {
  import opened Wrappers
  import opened Descriptors
  import JsArray

  function DigitChar(d: nat): (c: char)
    requires d < 10
    ensures IsDigit(c) && c as int - '0' as int == d
  {
    ('0' as int + d) as char
  }

  predicate IsDigit(c: char) {
    '0' <= c <= '9'
  }

  /** The decimal digits of `n`, without leading zeros. */
  function Decimal(n: nat): (s: string)
    ensures |s| >= 1 && forall i :: 0 <= i < |s| ==> IsDigit(s[i])
  {
    if n < 10 then [DigitChar(n)] else Decimal(n / 10) + [DigitChar(n % 10)]
  }

  /** The template literal `${n}` of an integer candidate id: a nonempty
      string that starts with a minus sign exactly for negative `n`. */
  function IdString(n: int): (s: string)
    ensures |s| >= 1
    ensures s[0] == '-' <==> n < 0
  {
    if n < 0 then "-" + Decimal(-n) else Decimal(n)
  }

  /** The value of a nonempty string of decimal digits, if it is one. */
  function DecimalValue(s: string): (v: Option<int>)
    ensures v.Some? ==> v.value >= 0 && s != []
  {
    if s == [] || !IsDigit(s[|s| - 1]) then None
    else
      var d := s[|s| - 1] as int - '0' as int;
      if |s| == 1 then Some(d)
      else match DecimalValue(s[..|s| - 1])
        case None => None
        case Some(v) => Some(10 * v + d)
  }

  /** Reads an id string back as an integer, when it is an optional minus
      sign followed by decimal digits; a negative value needs the sign. */
  function ParseId(s: string): (v: Option<int>)
    ensures v.Some? ==> |s| >= 1
    ensures v.Some? && v.value < 0 ==> s[0] == '-'
  {
    if |s| > 0 && s[0] == '-' then
      match DecimalValue(s[1..])
      case None => None
      case Some(v) => Some(-v)
    else DecimalValue(s)
  }

  lemma {:induction false} DecimalRoundTrip(n: nat)
    ensures DecimalValue(Decimal(n)) == Some(n)
  {
    if n >= 10 {
      var s := Decimal(n);
      assert s[..|s| - 1] == Decimal(n / 10);
      DecimalRoundTrip(n / 10);
    }
  }

  /** Parsing undoes `${n}`. */
  lemma IdRoundTrip(n: int)
    ensures ParseId(IdString(n)) == Some(n)
  {
    var s := IdString(n);
    if n < 0 {
      var digits := Decimal(-n);
      assert s == "-" + digits;
      assert s[0] == '-' && s[1..] == digits;
      DecimalRoundTrip(-n);
    } else {
      var digits := Decimal(n);
      assert s == digits;
      assert IsDigit(digits[0]);
      DecimalRoundTrip(n);
    }
  }

  /** `${n}` is canonical: no leading zero after the optional minus sign,
      so no other spelling of the same number is ever produced. */
  lemma {:induction false} DecimalNoLeadingZero(n: nat)
    ensures n >= 1 ==> Decimal(n)[0] != '0'
  {
    if n >= 10 {
      DecimalNoLeadingZero(n / 10);
      assert Decimal(n)[0] == Decimal(n / 10)[0];
    }
  }

  /** The id string of a nonzero candidate has a nonzero first digit, and
      that of zero is "0". */
  lemma IdStringCanonical(n: int)
    ensures n == 0 ==> IdString(n) == "0"
    ensures n > 0 ==> IdString(n)[0] != '0'
    ensures n < 0 ==> |IdString(n)| >= 2 && IdString(n)[1] != '0'
  {
    if n > 0 {
      DecimalNoLeadingZero(n);
    } else if n < 0 {
      DecimalNoLeadingZero(-n);
      assert IdString(n)[1] == Decimal(-n)[0];
    }
  }

  /** Distinct candidates give distinct id strings. */
  lemma IdStringInjective(a: int, b: int)
    ensures IdString(a) == IdString(b) <==> a == b
  {
    IdRoundTrip(a);
    IdRoundTrip(b);
  }

  /** Some command in `commands` has id `id`. */
  predicate IdInUse(commands: seq<Command>, id: string) {
    exists c :: c in commands && c.id == id
  }

  /** The candidate `k` is already used as an id. */
  predicate CandidateTaken(commands: seq<Command>, k: int) {
    IdInUse(commands, IdString(k))
  }

  /** The id string of `c` reads as a candidate at or below `bound`. */
  predicate ProbedAtOrBelow(c: Command, bound: int) {
    var v := ParseId(c.id);
    v.Some? && v.value <= bound
  }

  /** The commands that could still block candidates at or below `bound`:
      a finite set that shrinks at every probe that hits. */
  function Blockers(commands: seq<Command>, bound: int): (b: set<Command>)
    ensures forall c :: c in b ==> c in commands
  {
    set c | c in commands && ProbedAtOrBelow(c, bound)
  }

  /** A candidate that is in use is a blocker at its own value and not
      below it, so each hit leaves fewer blockers. */
  lemma BlockersShrink(commands: seq<Command>, id: int)
    requires IdInUse(commands, IdString(id))
    ensures |Blockers(commands, id - 1)| < |Blockers(commands, id)|
  {
    var c :| c in commands && c.id == IdString(id);
    IdRoundTrip(id);
    var below, at := Blockers(commands, id - 1), Blockers(commands, id);
    assert c in at - below;
    SubsetCardinality(below, at - {c});
  }

  lemma {:induction false} SubsetCardinality<T>(a: set<T>, b: set<T>)
    requires a <= b
    ensures |a| <= |b|
    decreases a
  {
    if a != {} {
      var x :| x in a;
      SubsetCardinality(a - {x}, b - {x});
    }
  }

  /** `BUILT_IN_COMMANDS.find(command => command.id === id)`: it finds a
      command exactly when the id is in use, and what it finds has that id. */
  function FindById(commands: seq<Command>, id: string): (r: Option<Command>)
    ensures r.Some? <==> IdInUse(commands, id)
    ensures r.Some? ==> r.value in commands && r.value.id == id
  {
    JsArray.Find(commands, (c: Command) => c.id == id)
  }

  /** The recursion of `getNextAvailableCommandID(id)`, on the candidate
      number: `id` itself if no command uses `${id}`, otherwise the next
      candidate below. The result is at most `id`, free, and every candidate
      above it up to `id` was taken. */
  function FirstFreeCandidate(commands: seq<Command>, id: int): (n: int)
    ensures n <= id
    ensures !IdInUse(commands, IdString(n))
    ensures forall k :: n < k <= id ==> CandidateTaken(commands, k)
    decreases |Blockers(commands, id)|
  {
    if FindById(commands, IdString(id)).Some? then
      BlockersShrink(commands, id);
      FirstFreeCandidate(commands, id - 1)
    else
      id
  }

  /** `getNextAvailableCommandID(id = -1)`: the string `${n}` of the first
      free candidate `n` counting down from `id`. No command uses it, and it
      reads back as a number at most `id` above which, up to `id`, every
      candidate is taken. */
  function NextAvailableCommandId(commands: seq<Command>, id: int := -1): (r: string)
    ensures !IdInUse(commands, r)
    ensures ParseId(r).Some? && ParseId(r).value <= id
    ensures r == IdString(ParseId(r).value)
    ensures forall k :: ParseId(r).value < k <= id ==> CandidateTaken(commands, k)
  {
    var n := FirstFreeCandidate(commands, id);
    IdRoundTrip(n);
    IdString(n)
  }
}
