/** The review controller (controllers/reviewController.js). The review routes
    define their own handlers, so nothing mounts this controller. */
module ReviewController {
  import opened Js
  import opened Text
  import opened Http

  /** The store calls the controller issues. The rating is forwarded as sent. */
  datatype ReviewCall =
    | Create(userId: Value, carId: Value, rating: Value, comment: Value)
    | Approve(approveId: string)
    | SelectApproved
    | DeleteById(deleteId: string)

  /** `Number(v)`, the coercion a relational comparison applies to a value that
      is not a string compared with a string; None stands for NaN. A text is
      read as 0 when empty and as its value when it is an optionally signed
      run of digits; every other text is NaN. */
  function NumberOf(v: Value): Option<int>
  {
    match v
    case Undefined => None
    case Null => Some(0)
    case Bool(b) => Some(if b then 1 else 0)
    case Num(n) => Some(n)
    case Str(s) =>
      if s == "" then Some(0)
      else if DigitString(Unsigned(s)) then
        var m: int := DigitsValue(Unsigned(s));
        Some(if s[0] == '-' then -m else m)
      else None
  }

  /** Reading back what `String(n)` writes gives `n`. */
  lemma {:induction false} DigitsOfDecimalText(n: nat)
    ensures DigitString(DecimalText(n))
    ensures DigitsValue(DecimalText(n)) == n
    decreases n
  {
    var s := DecimalText(n);
    if n >= 10 {
      DigitsOfDecimalText(n / 10);
      assert s[..|s| - 1] == DecimalText(n / 10);
    }
  }

  /** A run of digits, with or without a leading minus, reads as its value. */
  lemma NumberOfDigits(d: string)
    requires DigitString(d)
    ensures NumberOf(Str(d)) == Some(DigitsValue(d))
    ensures NumberOf(Str("-" + d)) == Some(-(DigitsValue(d) as int))
  {
    assert IsDigit(d[0]);
    assert Unsigned(d) == d;
    var s := "-" + d;
    assert s[0] == '-' && Unsigned(s) == d;
  }

  /** A number sent as text compares as that number. */
  lemma NumberOfTemplate(n: int)
    ensures NumberOf(Str(Template(Num(n)))) == Some(n)
  {
    if n < 0 {
      DigitsOfDecimalText(-n);
      NumberOfDigits(DecimalText(-n));
    } else {
      DigitsOfDecimalText(n);
      NumberOfDigits(DecimalText(n));
    }
  }

  /** `rating < 1 || rating > 5`. A NaN makes both comparisons false. */
  predicate RatingOutOfRange(rating: Value)
  {
    var n := NumberOf(rating);
    n.Some? && (n.value < 1 || n.value > 5)
  }

  /** createReview: validation errors answer 400 with the list; a rating
      outside 1..5 answers 400 before the insert; a NOT NULL violation of the
      insert answers 400, any other store error 500, success 201. */
  function CreateReview(errors: seq<FieldError>, userId: Value, carId: Value, rating: Value, comment: Value,
                        dbError: Option<DbError>): (o: Outcome<ReviewCall>)
    ensures errors != [] ==> o == Outcome(None, Response(400, Some(false), errors, []))
    ensures o.call.Some? <==> errors == [] && !RatingOutOfRange(rating)
    ensures errors == [] && o.call.None? ==> o.response == Reply(400, false)
    ensures o.call.Some? ==> o.call.value == Create(userId, carId, rating, comment)
    ensures o.call.Some? ==> o.response == match dbError
                                             case None => Reply(201, true)
                                             case Some(BadNull) => Reply(400, false)
                                             case Some(_) => Reply(500, false)
  {
    if errors != [] then Outcome(None, Response(400, Some(false), errors, []))
    else if RatingOutOfRange(rating) then Outcome(None, Reply(400, false))
    else
      var response :=
        if dbError.None? then Reply(201, true)
        else if dbError.value == BadNull then Reply(400, false)
        else Reply(500, false);
      Outcome(Some(Create(userId, carId, rating, comment)), response)
  }

  /** A review the controller accepts has a rating from 1 to 5, unless the
      rating was NaN. */
  lemma AcceptedRatingsInRange(errors: seq<FieldError>, userId: Value, carId: Value, rating: Value,
                               comment: Value, dbError: Option<DbError>)
    requires CreateReview(errors, userId, carId, rating, comment, dbError).response.status == 201
    ensures NumberOf(rating).Some? ==> 1 <= NumberOf(rating).value <= 5
  {
  }

  /** How the comparison treats ratings that are not numbers: null, "" and
      false compare as 0 and are refused, true as 1 and a missing rating as NaN
      are let through, and a number sent as text compares as that number. */
  lemma CoercedRatings(userId: Value, carId: Value, comment: Value, dbError: Option<DbError>, n: int)
    ensures CreateReview([], userId, carId, Null, comment, dbError).call.None?
    ensures CreateReview([], userId, carId, Str(""), comment, dbError).call.None?
    ensures CreateReview([], userId, carId, Bool(false), comment, dbError).call.None?
    ensures CreateReview([], userId, carId, Bool(true), comment, dbError).call.Some?
    ensures CreateReview([], userId, carId, Undefined, comment, dbError).call.Some?
    ensures CreateReview([], userId, carId, Str(Template(Num(n))), comment, dbError).call.Some? <==> 1 <= n <= 5
  {
    NumberOfTemplate(n);
  }

  /** approveReview: a missing or non-numeric id answers 400 before the store
      is asked. */
  function ApproveReview(id: string, dbFails: bool): (o: Outcome<ReviewCall>)
    ensures o.call.None? <==> NotAnId(id)
    ensures o.call.None? ==> o.response == Reply(400, false)
    ensures o.call.Some? ==> o.call.value == Approve(id)
                             && o.response == (if dbFails then Reply(500, false) else Reply(200, true))
  {
    if NotAnId(id) then Outcome(None, Reply(400, false))
    else Outcome(Some(Approve(id)), if dbFails then Reply(500, false) else Reply(200, true))
  }

  /** getApprovedReviews: the approved reviews, or 500. */
  function GetApprovedReviews(dbFails: bool, results: seq<Object>): (o: Outcome<ReviewCall>)
    ensures o.call == Some(SelectApproved)
    ensures o.response == if dbFails then Reply(500, false) else Response(200, Some(true), [], results)
  {
    Outcome(Some(SelectApproved), if dbFails then Reply(500, false) else Response(200, Some(true), [], results))
  }

  /** deleteReview: a missing or non-numeric id answers 400 before the store
      is asked. */
  function DeleteReview(id: string, dbFails: bool): (o: Outcome<ReviewCall>)
    ensures o.call.None? <==> NotAnId(id)
    ensures o.call.None? ==> o.response == Reply(400, false)
    ensures o.call.Some? ==> o.call.value == DeleteById(id)
                             && o.response == (if dbFails then Reply(500, false) else Reply(200, true))
  {
    if NotAnId(id) then Outcome(None, Reply(400, false))
    else Outcome(Some(DeleteById(id)), if dbFails then Reply(500, false) else Reply(200, true))
  }

  /** The ids the routes' integer check lets through reach the store here too,
      and an empty id never does. */
  lemma IdGuardExamples(dbFails: bool)
    ensures ApproveReview("", dbFails).call.None?
    ensures DeleteReview("12", dbFails).call == Some(DeleteById("12"))
  {
    DigitStringIsNumber("12");
  }
}
