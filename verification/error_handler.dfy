/** The Express error handler: a pure classification of a thrown error into an
    HTTP status and message, by a sequence of `if`s in which a later matching
    rule overrides an earlier one. */
module ErrorHandler {
  import opened Optional
  import opened Http
  import Text

  const ResourceNotFound := "Resource not found"
  const FileTooLarge := "File size exceeds the maximum limit of 10MB"
  const InvalidToken := "Invalid token"
  const TokenExpired := "Token expired"

  /** A status with the message to send. */
  datatype Verdict = Verdict(status: int, message: string)

  /** `err.statusCode || err.status || 500`. */
  function DefaultStatus(err: Fault): int {
    if err.statusCode != 0 then err.statusCode
    else if err.status != 0 then err.status
    else 500
  }

  /** `err.message || "Server Error"`. */
  function DefaultMessage(err: Fault): string {
    if err.message != "" then err.message else "Server Error"
  }

  /** The verdict before any rule applies. */
  function Default(err: Fault): (v: Verdict)
    ensures v.status != 0
    ensures v.message != ""
    ensures err.statusCode != 0 ==> v.status == err.statusCode
    ensures err.statusCode == 0 && err.status != 0 ==> v.status == err.status
    ensures err.statusCode == 0 && err.status == 0 ==> v.status == 500
    ensures err.message != "" ==> v.message == err.message
    ensures err.message == "" ==> v.message == "Server Error"
  {
    Verdict(DefaultStatus(err), DefaultMessage(err))
  }

  /** `${Object.keys(err.keyValue)[0]} already exists`; with no key the template
      prints "undefined". */
  function DuplicateKeyMessage(err: Fault): string {
    (if |err.keyValue| > 0 then err.keyValue[0] else "undefined") + " already exists"
  }

  /** The validation messages joined by ", ". */
  function ValidationMessage(err: Fault): string {
    Text.Join(err.errors, ", ")
  }

  predicate IsDuplicateKey(err: Fault) { err.code == NumCode(11000) }
  predicate IsFileTooLarge(err: Fault) { err.code == TextCode("LIMIT_FILE_SIZE") }
  predicate IsTokenError(err: Fault) { err.name == "JsonWebTokenError" || err.name == "TokenExpiredError" }

  /** The handler's classification, rule after rule, each match overwriting the
      verdict so far. The contract gives the outcome for every error: the rule
      that wins is the last one in source order that matches. */
  function Classify(err: Fault): (v: Verdict)
    ensures err.name == "TokenExpiredError" ==> v == Verdict(401, TokenExpired)
    ensures err.name == "JsonWebTokenError" ==> v == Verdict(401, InvalidToken)
    ensures !IsTokenError(err) && IsFileTooLarge(err) ==> v == Verdict(400, FileTooLarge)
    ensures err.name == "ValidationError" && !IsFileTooLarge(err) ==> v == Verdict(400, ValidationMessage(err))
    ensures (IsDuplicateKey(err) && err.name != "ValidationError" && !IsTokenError(err))
              ==> v == Verdict(400, DuplicateKeyMessage(err))
    ensures (err.name == "CastError" && !IsDuplicateKey(err) && !IsFileTooLarge(err))
              ==> v == Verdict(404, ResourceNotFound)
    ensures (err.name !in {"CastError", "ValidationError", "JsonWebTokenError", "TokenExpiredError"}
              && !IsDuplicateKey(err) && !IsFileTooLarge(err)) ==> v == Default(err)
    // A summary of the clauses above: a rule's verdict or the default.
    ensures v.status in {400, 401, 404} || v == Default(err)
  {
    var v0 := Default(err);
    var v1 := if err.name == "CastError" then Verdict(404, ResourceNotFound) else v0;
    var v2 := if err.code == NumCode(11000) then Verdict(400, DuplicateKeyMessage(err)) else v1;
    var v3 := if err.name == "ValidationError" then Verdict(400, ValidationMessage(err)) else v2;
    var v4 := if err.code == TextCode("LIMIT_FILE_SIZE") then Verdict(400, FileTooLarge) else v3;
    var v5 := if err.name == "JsonWebTokenError" then Verdict(401, InvalidToken) else v4;
    if err.name == "TokenExpiredError" then Verdict(401, TokenExpired) else v5
  }

  /** The response the handler sends: `success` is false, `statusCode` repeats
      the HTTP status, and the stack is included only in development. */
  function Handle(err: Fault, development: bool): (r: ErrorReply)
    ensures !r.body.success
    ensures r.body.statusCode == r.status
    ensures r.status == Classify(err).status && r.body.error == Classify(err).message
    ensures r.body.stack.Some? <==> development
    ensures development ==> r.body.stack == Some(err.stack)
  {
    var v := Classify(err);
    ErrorReply(v.status, ErrorBody(false, v.message, v.status, if development then Some(err.stack) else None))
  }

  /** What the client finally receives for a handler's reply: a forwarded error
      goes through `Handle`, every other reply is sent as it is. */
  function Deliver<T>(reply: Reply<T>, development: bool): (r: Reply<T>)
    ensures !r.Forward?
    ensures reply.Forward? ==> r == Fail(Handle(reply.fault, development))
    ensures !reply.Forward? ==> r == reply
  {
    match reply
    case Forward(f) => Fail(Handle(f, development))
    case _ => reply
  }

  /** A query on an identifier that does not cast reaches the client as
      404 "Resource not found". */
  lemma CastFailureIsNotFound<T>(text: string, development: bool)
    ensures Deliver<T>(Forward(CastFault(text)), development).response.status == 404
    ensures Deliver<T>(Forward(CastFault(text)), development).response.body.error == ResourceNotFound
  {
  }

  // A reference reading of the same handler: a list of rules, the verdict of
  // the last applicable one.

  /** A rule: when it applies, and the verdict it sets. */
  datatype Rule = Rule(applies: Fault -> bool, verdict: Fault -> Verdict)

  /** The handler's rules in source order. */
  function Rules(): seq<Rule> {
    [ Rule((err: Fault) => err.name == "CastError", (err: Fault) => Verdict(404, ResourceNotFound)),
      Rule((err: Fault) => err.code == NumCode(11000), (err: Fault) => Verdict(400, DuplicateKeyMessage(err))),
      Rule((err: Fault) => err.name == "ValidationError", (err: Fault) => Verdict(400, ValidationMessage(err))),
      Rule((err: Fault) => err.code == TextCode("LIMIT_FILE_SIZE"), (err: Fault) => Verdict(400, FileTooLarge)),
      Rule((err: Fault) => err.name == "JsonWebTokenError", (err: Fault) => Verdict(401, InvalidToken)),
      Rule((err: Fault) => err.name == "TokenExpiredError", (err: Fault) => Verdict(401, TokenExpired)) ]
  }

  /** Running the rules front to back, each applicable one overwriting `v`. */
  function Overwrite(rules: seq<Rule>, err: Fault, v: Verdict): Verdict
    decreases |rules|
  {
    if |rules| == 0 then v
    else Overwrite(rules[1..], err, if rules[0].applies(err) then rules[0].verdict(err) else v)
  }

  /** The verdict of the last rule that applies, or `fallback` if none does. */
  function LastApplicable(rules: seq<Rule>, err: Fault, fallback: Verdict): Verdict
    decreases |rules|
  {
    if |rules| == 0 then fallback
    else if rules[|rules| - 1].applies(err) then rules[|rules| - 1].verdict(err)
    else LastApplicable(rules[..|rules| - 1], err, fallback)
  }

  /** Looking for the last applicable rule, the first rule only matters as the
      new fallback. */
  lemma {:induction false} LastApplicableHead(r: Rule, rest: seq<Rule>, err: Fault, fallback: Verdict)
    ensures LastApplicable([r] + rest, err, fallback)
         == LastApplicable(rest, err, if r.applies(err) then r.verdict(err) else fallback)
    decreases |rest|
  {
    var rules := [r] + rest;
    if |rest| == 0 {
      assert rules[..0] == [];
    } else {
      assert rules[|rules| - 1] == rest[|rest| - 1];
      assert rules[..|rules| - 1] == [r] + rest[..|rest| - 1];
      LastApplicableHead(r, rest[..|rest| - 1], err, fallback);
    }
  }

  /** Sequential overwriting is the same as "the last applicable rule wins". */
  lemma {:induction false} OverwriteIsLastApplicable(rules: seq<Rule>, err: Fault, v: Verdict)
    ensures Overwrite(rules, err, v) == LastApplicable(rules, err, v)
    decreases |rules|
  {
    if |rules| > 0 {
      var v' := if rules[0].applies(err) then rules[0].verdict(err) else v;
      OverwriteIsLastApplicable(rules[1..], err, v');
      LastApplicableHead(rules[0], rules[1..], err, v);
      assert [rules[0]] + rules[1..] == rules;
    }
  }

  /** The handler's verdict is that of the last of its rules that applies to the
      error, or the default when none does. */
  lemma ClassifyIsLastApplicable(err: Fault)
    ensures Classify(err) == LastApplicable(Rules(), err, Default(err))
  {
    var rs := Rules();
    calc {
      Overwrite(rs, err, Default(err));
      Overwrite(rs[1..], err, if rs[0].applies(err) then rs[0].verdict(err) else Default(err));
    }
    assert Overwrite(rs, err, Default(err)) == Classify(err);
    OverwriteIsLastApplicable(rs, err, Default(err));
  }
}
