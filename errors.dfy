/** `ErrorMapper.toUserFacingError`: the message of a thrown value is tested
    for a fixed list of substrings, first match wins, and the result carries
    a user-facing message, one of seven codes, and the original message. */
module Errors {
  import opened Text

  datatype ErrorCode =
    | PaymentCreationFailed
    | PaymentServiceUnavailable
    | SeatNotFound
    | SeatNotAvailable
    | InvalidSeatId
    | InsufficientFunds
    | CardDeclined

  function CodeName(c: ErrorCode): (name: string)
    ensures name != ""
  {
    match c
    case PaymentCreationFailed => "PAYMENT_CREATION_FAILED"
    case PaymentServiceUnavailable => "PAYMENT_SERVICE_UNAVAILABLE"
    case SeatNotFound => "SEAT_NOT_FOUND"
    case SeatNotAvailable => "SEAT_NOT_AVAILABLE"
    case InvalidSeatId => "INVALID_SEAT_ID"
    case InsufficientFunds => "INSUFFICIENT_FUNDS"
    case CardDeclined => "CARD_DECLINED"
  }

  /** The seven codes have seven names. */
  lemma CodeNamesDistinct(c1: ErrorCode, c2: ErrorCode)
    requires CodeName(c1) == CodeName(c2)
    ensures c1 == c2
  {
  }

  /** What was thrown: an `Error` with its message, or any other value with
      its `String(...)` rendering. */
  datatype Thrown = ErrorObject(message: string) | OtherValue(rendered: string)

  function OriginalMessage(e: Thrown): string
  {
    match e
    case ErrorObject(m) => m
    case OtherValue(r) => r
  }

  datatype UserFacingError = UserFacingError(message: string, code: ErrorCode, originalError: string)

  const DefaultMessage: string := "เกิดข้อผิดพลาดในการสร้างการชำระเงิน"

  /** The user-facing message that goes with each code. */
  function MessageFor(c: ErrorCode): string
  {
    match c
    case PaymentCreationFailed => DefaultMessage
    case PaymentServiceUnavailable => "ระบบชำระเงินไม่พร้อมใช้งาน กรุณาลองใหม่อีกครั้ง"
    case SeatNotFound => "ไม่พบที่นั่งที่เลือก กรุณาเลือกที่นั่งใหม่"
    case SeatNotAvailable => "ที่นั่งนี้ถูกจองแล้ว กรุณาเลือกที่นั่งอื่น"
    case InvalidSeatId => "ข้อมูลที่นั่งไม่ถูกต้อง กรุณาเลือกที่นั่งใหม่"
    case InsufficientFunds => "ยอดเงินไม่เพียงพอ กรุณาตรวจสอบยอดเงินในบัญชี"
    case CardDeclined => "บัตรเครดิตถูกปฏิเสธ กรุณาตรวจสอบข้อมูลบัตรหรือใช้บัตรอื่น"
  }

  predicate AuthFailure(m: string)
  {
    Contains(m, "expired key") || Contains(m, "authentication failed")
  }

  function ToUserFacingError(e: Thrown): (r: UserFacingError)
    ensures r.originalError == OriginalMessage(e)
    ensures r.message == MessageFor(r.code)
    ensures var m := OriginalMessage(e);
            && (r.code == PaymentServiceUnavailable <==> AuthFailure(m))
            && (r.code == SeatNotFound <==> !AuthFailure(m) && Contains(m, "Seat not found"))
            && (r.code == SeatNotAvailable <==>
                  !AuthFailure(m) && !Contains(m, "Seat not found") && Contains(m, "Seat is not available"))
            && (r.code == InvalidSeatId <==>
                  !AuthFailure(m) && !Contains(m, "Seat not found") && !Contains(m, "Seat is not available")
                  && Contains(m, "invalid input syntax for type uuid"))
            && (r.code == InsufficientFunds <==>
                  !AuthFailure(m) && !Contains(m, "Seat not found") && !Contains(m, "Seat is not available")
                  && !Contains(m, "invalid input syntax for type uuid") && Contains(m, "insufficient funds"))
            && (r.code == CardDeclined <==>
                  !AuthFailure(m) && !Contains(m, "Seat not found") && !Contains(m, "Seat is not available")
                  && !Contains(m, "invalid input syntax for type uuid") && !Contains(m, "insufficient funds")
                  && Contains(m, "card declined"))
            && (r.code == PaymentCreationFailed <==>
                  !AuthFailure(m) && !Contains(m, "Seat not found") && !Contains(m, "Seat is not available")
                  && !Contains(m, "invalid input syntax for type uuid") && !Contains(m, "insufficient funds")
                  && !Contains(m, "card declined"))
  {
    var m := OriginalMessage(e);
    var code :=
      if AuthFailure(m) then PaymentServiceUnavailable
      else if Contains(m, "Seat not found") then SeatNotFound
      else if Contains(m, "Seat is not available") then SeatNotAvailable
      else if Contains(m, "invalid input syntax for type uuid") then InvalidSeatId
      else if Contains(m, "insufficient funds") then InsufficientFunds
      else if Contains(m, "card declined") then CardDeclined
      else PaymentCreationFailed;
    UserFacingError(MessageFor(code), code, m)
  }

  /** An independent statement of the mapper: an ordered table of rules,
      each a list of substrings and the code they select. */
  datatype Rule = Rule(patterns: seq<string>, code: ErrorCode)

  const Rules: seq<Rule> := [
    Rule(["expired key", "authentication failed"], PaymentServiceUnavailable),
    Rule(["Seat not found"], SeatNotFound),
    Rule(["Seat is not available"], SeatNotAvailable),
    Rule(["invalid input syntax for type uuid"], InvalidSeatId),
    Rule(["insufficient funds"], InsufficientFunds),
    Rule(["card declined"], CardDeclined)
  ]

  predicate Matches(m: string, r: Rule)
  {
    exists k :: 0 <= k < |r.patterns| && Contains(m, r.patterns[k])
  }

  /** The code of the first rule that matches, or the default. */
  function FirstMatch(m: string, rules: seq<Rule>): (c: ErrorCode)
    ensures c == PaymentCreationFailed || exists k :: 0 <= k < |rules| && rules[k].code == c
    ensures (forall k :: 0 <= k < |rules| ==> !Matches(m, rules[k])) ==> c == PaymentCreationFailed
  {
    if rules == [] then PaymentCreationFailed
    else if Matches(m, rules[0]) then rules[0].code
    else FirstMatch(m, rules[1..])
  }

  /** A rule with one pattern matches exactly the messages containing it. */
  lemma MatchesSingle(m: string, r: Rule)
    requires |r.patterns| == 1
    ensures Matches(m, r) <==> Contains(m, r.patterns[0])
  {
    if Contains(m, r.patterns[0]) {
      assert 0 < |r.patterns|;
    }
  }

  /** The first rule is the gateway-auth test. */
  lemma MatchesAuth(m: string)
    ensures Matches(m, Rules[0]) <==> AuthFailure(m)
  {
    var ps := Rules[0].patterns;
    if Contains(m, "expired key") { assert ps[0] == "expired key"; }
    if Contains(m, "authentication failed") { assert ps[1] == "authentication failed"; }
  }

  /** `FirstMatch` over the table, written out rule by rule. */
  lemma {:induction false} FirstMatchUnrolled(m: string)
    ensures FirstMatch(m, Rules) ==
              if Matches(m, Rules[0]) then PaymentServiceUnavailable
              else if Matches(m, Rules[1]) then SeatNotFound
              else if Matches(m, Rules[2]) then SeatNotAvailable
              else if Matches(m, Rules[3]) then InvalidSeatId
              else if Matches(m, Rules[4]) then InsufficientFunds
              else if Matches(m, Rules[5]) then CardDeclined
              else PaymentCreationFailed
  {
    var rs := Rules;
    var s1, s2, s3 := rs[1..], rs[2..], rs[3..];
    var s4, s5, s6 := rs[4..], rs[5..], rs[6..];
    assert s1[0] == rs[1] && s1[1..] == s2;
    assert s2[0] == rs[2] && s2[1..] == s3;
    assert s3[0] == rs[3] && s3[1..] == s4;
    assert s4[0] == rs[4] && s4[1..] == s5;
    assert s5[0] == rs[5] && s5[1..] == s6 && s6 == [];
    assert FirstMatch(m, s5) == if Matches(m, rs[5]) then CardDeclined else PaymentCreationFailed;
    assert FirstMatch(m, s4) == if Matches(m, rs[4]) then InsufficientFunds else FirstMatch(m, s5);
    assert FirstMatch(m, s3) == if Matches(m, rs[3]) then InvalidSeatId else FirstMatch(m, s4);
    assert FirstMatch(m, s2) == if Matches(m, rs[2]) then SeatNotAvailable else FirstMatch(m, s3);
    assert FirstMatch(m, s1) == if Matches(m, rs[1]) then SeatNotFound else FirstMatch(m, s2);
  }

  /** The if/else chain of the mapper picks the code the rule table picks. */
  lemma MapperFollowsRules(e: Thrown)
    ensures ToUserFacingError(e).code == FirstMatch(OriginalMessage(e), Rules)
  {
    var m := OriginalMessage(e);
    FirstMatchUnrolled(m);
    MatchesAuth(m);
    MatchesSingle(m, Rules[1]);
    MatchesSingle(m, Rules[2]);
    MatchesSingle(m, Rules[3]);
    MatchesSingle(m, Rules[4]);
    MatchesSingle(m, Rules[5]);
  }
}
