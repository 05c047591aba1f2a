/** The persistence gateway: `saveRegistration` inserts one row into the
    `early_registrations` table and classifies the store's answer, and
    `sendWelcomeEmail` invokes the welcome-mail edge function. The remote
    store is an abstract external: a `Client` object whose answers are given
    and whose calls are recorded. */
module Supabase {
  import opened Wrappers
  import Text

  const Table := "early_registrations"
  const WelcomeFunction := "send-welcome-email"
  /** Postgres' SQLSTATE for a unique-constraint violation. */
  const UniqueViolation := "23505"
  const DuplicateMessage := "This email is already registered."
  const SaveFailedMessage := "Failed to save registration."
  const UnexpectedMessage := "An unexpected error occurred. Please try again."

  /** A registration, as the form hands it over and as the row is written
      (columns name, email, date_of_birth, referral_source). */
  datatype RegistrationData = RegistrationData(
    name: string, email: string, dateOfBirth: string, referralSource: string)

  /** `{ success, error?, isDuplicate? }`. */
  datatype RegistrationResponse = RegistrationResponse(
    success: bool, error: Option<string>, isDuplicate: Option<bool>)

  /** The error object the store reports. */
  datatype StoreError = StoreError(code: string, message: string)

  /** What awaiting an insert gives: no error, an error object, or an
      exception (network failure, or anything else the client throws). */
  datatype InsertReply = Inserted | Rejected(err: StoreError) | InsertThrew

  /** What awaiting the edge function gives. */
  datatype InvokeReply = Invoked | FunctionError(message: string) | InvokeThrew

  datatype InsertCall = InsertCall(table: string, rows: seq<RegistrationData>)
  datatype InvokeCall = InvokeCall(functionName: string, name: string, email: string)

  /** The configured store client. The module-level `supabase` value is a
      `Client?`: null when the URL or the key is missing. */
  class Client {
    /** How the store answers an insert. */
    var insertReply: InsertReply
    /** How the edge function answers an invocation. */
    var invokeReply: InvokeReply
    /** Every insert sent, oldest first. */
    var inserts: seq<InsertCall>
    /** Every edge-function invocation sent, oldest first. */
    var invocations: seq<InvokeCall>

    constructor (insertReply: InsertReply, invokeReply: InvokeReply)
      ensures this.insertReply == insertReply && this.invokeReply == invokeReply
      ensures inserts == [] && invocations == []
    {
      this.insertReply := insertReply;
      this.invokeReply := invokeReply;
      inserts := [];
      invocations := [];
    }

    /** `from(table).insert(rows)`. */
    method Insert(table: string, rows: seq<RegistrationData>) returns (reply: InsertReply)
      modifies this`inserts
      ensures inserts == old(inserts) + [InsertCall(table, rows)]
      ensures reply == insertReply
    {
      inserts := inserts + [InsertCall(table, rows)];
      reply := insertReply;
    }

    /** `functions.invoke(functionName, { body: { name, email } })`. */
    method Invoke(functionName: string, name: string, email: string) returns (reply: InvokeReply)
      modifies this`invocations
      ensures invocations == old(invocations) + [InvokeCall(functionName, name, email)]
      ensures reply == invokeReply
    {
      invocations := invocations + [InvokeCall(functionName, name, email)];
      reply := invokeReply;
    }
  }

  /** The stored form of an email address: lower-cased, then trimmed. */
  function NormalizeEmail(email: string): (r: string)
    ensures Text.NoUpper(r) && Text.Trimmed(r)
    ensures |r| <= |email|
  {
    var lower := Text.ToLower(email);
    Text.ToLowerProperties(email);
    Text.TrimKeepsNoUpper(lower);
    Text.Trim(lower)
  }

  /** Normalizing a normalized address changes nothing. */
  lemma NormalizeEmailIdempotent(email: string)
    ensures NormalizeEmail(NormalizeEmail(email)) == NormalizeEmail(email)
  {
    var n := NormalizeEmail(email);
    Text.ToLowerProperties(n);
    Text.TrimIdempotent(n);
    assert [] + n + [] == n;
    Text.TrimUnique([], n, []);
  }

  /** Normalization is exactly "lower-case, then drop surrounding white
      space": the result is the lower-cased address with white space only
      around it. */
  lemma NormalizeEmailSplit(email: string) returns (before: string, after: string)
    ensures Text.AllWhiteSpace(before) && Text.AllWhiteSpace(after)
    ensures Text.ToLower(email) == before + NormalizeEmail(email) + after
  {
    before, after := Text.TrimSplit(Text.ToLower(email));
  }

  /** The row `saveRegistration` inserts for `data`. */
  function RowFor(data: RegistrationData): (row: RegistrationData)
    ensures row.name == data.name && row.dateOfBirth == data.dateOfBirth
    ensures row.referralSource == data.referralSource
    ensures row.email == NormalizeEmail(data.email)
  {
    data.(email := NormalizeEmail(data.email))
  }

  /** Addresses that differ only in (ASCII) case, or only in the white
      space around them, are stored as the same email, so the store's
      uniqueness constraint treats them as one address. */
  lemma NormalizeEmailIgnoresCase(email: string)
    ensures NormalizeEmail(Text.ToLower(email)) == NormalizeEmail(email)
  {
    Text.ToLowerProperties(email);
  }

  lemma NormalizeEmailIgnoresPadding(email: string, before: string, after: string)
    requires Text.AllWhiteSpace(before) && Text.AllWhiteSpace(after)
    ensures NormalizeEmail(before + email + after) == NormalizeEmail(email)
  {
    var lower := Text.ToLower(email);
    var n := NormalizeEmail(email);
    var b, a := NormalizeEmailSplit(email);
    ToLowerOfWhiteSpace(before);
    ToLowerOfWhiteSpace(after);
    ToLowerConcat(before, email);
    ToLowerConcat(before + email, after);
    assert Text.ToLower(before + email + after) == before + lower + after;
    Regroup(before, b, n, a, after);
    AllWhiteSpaceConcat(before, b);
    AllWhiteSpaceConcat(a, after);
    Text.TrimUnique(before + b, n, a + after);
  }

  lemma Regroup(w: string, x: string, y: string, z: string, v: string)
    ensures w + (x + y + z) + v == (w + x) + y + (z + v)
  {
  }

  lemma ToLowerConcat(x: string, y: string)
    ensures Text.ToLower(x + y) == Text.ToLower(x) + Text.ToLower(y)
  {
  }

  lemma ToLowerOfWhiteSpace(s: string)
    requires Text.AllWhiteSpace(s)
    ensures Text.ToLower(s) == s
  {
  }

  lemma AllWhiteSpaceConcat(x: string, y: string)
    requires Text.AllWhiteSpace(x) && Text.AllWhiteSpace(y)
    ensures Text.AllWhiteSpace(x + y)
  {
  }

  /** A response as the gateway's callers read it: an error only on
      failure, a duplicate flag only on failure and only ever true. */
  predicate WellFormed(r: RegistrationResponse) {
    && (r.error.Some? <==> !r.success)
    && (r.isDuplicate.Some? ==> !r.success && r.isDuplicate.value)
  }

  /** The response `saveRegistration` returns for a given outcome of its
      insert. */
  function InsertResponse(reply: InsertReply): (r: RegistrationResponse)
    ensures WellFormed(r)
    ensures r.success <==> reply.Inserted?
    ensures !r.success ==> r.error.value != ""
    ensures r.isDuplicate.Some? <==> reply.Rejected? && reply.err.code == UniqueViolation
    ensures r.isDuplicate.Some? ==> r.error == Some(DuplicateMessage)
    ensures reply.Rejected? && reply.err.code != UniqueViolation ==>
              r.error == Some(Text.OrElse(Some(reply.err.message), SaveFailedMessage))
    ensures reply.InsertThrew? ==> r.error == Some(UnexpectedMessage)
  {
    match reply
    case Inserted => RegistrationResponse(true, None, None)
    case Rejected(err) =>
      if err.code == UniqueViolation then
        RegistrationResponse(false, Some(DuplicateMessage), Some(true))
      else
        RegistrationResponse(false, Some(Text.OrElse(Some(err.message), SaveFailedMessage)), None)
    case InsertThrew => RegistrationResponse(false, Some(UnexpectedMessage), None)
  }

  /** The expected result of `saveRegistration` on `client`: a null client
      throws on its first use, inside the try block. */
  function SaveResponse(client: Client?): RegistrationResponse
    reads client
  {
    InsertResponse(if client == null then InsertThrew else client.insertReply)
  }

  /** `sendWelcomeEmail(name, email)`: `threw` tells whether it rejects.
      With no client it warns and returns; otherwise it invokes the edge
      function once and rethrows any error it reports or throws. */
  method SendWelcomeEmail(client: Client?, name: string, email: string) returns (threw: bool)
    modifies client
    ensures client == null ==> !threw
    ensures client != null ==>
              && threw == !old(client.invokeReply).Invoked?
              && client.invocations == old(client.invocations) + [InvokeCall(WelcomeFunction, name, email)]
              && client.inserts == old(client.inserts)
              && client.insertReply == old(client.insertReply)
              && client.invokeReply == old(client.invokeReply)
  {
    if client == null {
      threw := false;
      return;
    }
    var reply := client.Invoke(WelcomeFunction, name, email);
    match reply
    case Invoked => threw := false;
    case FunctionError(_) => threw := true;
    case InvokeThrew => threw := true;
  }

  /** `saveRegistration(data)`: never throws, sends exactly one insert of the
      normalized row, and asks for a welcome email, with the address as
      given, only when the insert reported no error. Whatever the welcome
      email does, the response depends on the insert alone. */
  method SaveRegistration(client: Client?, data: RegistrationData) returns (r: RegistrationResponse)
    modifies client
    ensures r == old(SaveResponse(client))
    ensures client != null ==>
              && client.inserts == old(client.inserts) + [InsertCall(Table, [RowFor(data)])]
              && client.invocations == old(client.invocations) +
                   (if old(client.insertReply).Inserted?
                    then [InvokeCall(WelcomeFunction, data.name, data.email)] else [])
              && client.insertReply == old(client.insertReply)
              && client.invokeReply == old(client.invokeReply)
  {
    if client == null {
      // calling `from` on the null client throws a TypeError, caught below
      r := InsertResponse(InsertThrew);
      return;
    }
    var reply := client.Insert(Table, [RowFor(data)]);
    if reply.Inserted? {
      // a failed welcome email is logged and does not change the outcome
      var _ := SendWelcomeEmail(client, data.name, data.email);
    }
    r := InsertResponse(reply);
  }
}
