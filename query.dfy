/**
 * The customer-support form (`QueryScreen`): an email, a subject and a
 * message sent as a query.
 */
module Query {
  import opened Wrappers
  import opened Text
  import opened Api

  /** Why "Submit Query" sent nothing. */
  datatype QueryError =
    | MissingFields   // "Please fill in all fields"
    | InvalidEmail    // "Please enter a valid email address"

  /**
   * The "Submit Query" checks, in order: all three fields non-blank, then
   * the email accepted by the platform's email pattern (`matchesEmail`).
   * The fields are sent exactly as typed.
   */
  function QueryCheck(email: string, subject: string, message: string, matchesEmail: string -> bool)
    : (r: Result<CustomerQueryRequest, QueryError>)
    ensures r == Failure(MissingFields) <==> IsBlank(email) || IsBlank(subject) || IsBlank(message)
    ensures r == Failure(InvalidEmail) <==>
      !IsBlank(email) && !IsBlank(subject) && !IsBlank(message) && !matchesEmail(email)
    ensures r.Success? ==> matchesEmail(email) && !IsBlank(r.value.email)
    ensures r.Success? ==> r.value == CustomerQueryRequest(email, subject, message)
  {
    if IsBlank(email) || IsBlank(subject) || IsBlank(message) then Failure(MissingFields)
    else if !matchesEmail(email) then Failure(InvalidEmail)
    else Success(CustomerQueryRequest(email, subject, message))
  }

  /** The plain text fields of the screen, each set to whatever is typed. */
  datatype TextField = Email | Subject | Message

  /** The screen's remembered state (`QueryScreen.kt` lines 39-42). */
  class QueryScreen {
    const userEmail: Option<string>

    var email: string
    var subject: string
    var message: string
    var isLoading: bool

    /** No query is in flight between handlers. */
    ghost predicate Valid()
      reads this
    {
      !isLoading
    }

    /** A fresh form: the email starts as the logged-in email, or empty. */
    constructor (userEmail: Option<string>)
      ensures Valid()
      ensures this.userEmail == userEmail
      ensures email == userEmail.GetOr("") && subject == "" && message == ""
    {
      this.userEmail := userEmail;
      email := userEmail.GetOr("");
      subject := "";
      message := "";
      isLoading := false;
    }

    /** Typing into a plain text field replaces its text and nothing else. */
    method Edit(field: TextField, value: string)
      requires Valid()
      modifies this`email, this`subject, this`message
      ensures Valid()
      ensures email == if field == Email then value else old(email)
      ensures subject == if field == Subject then value else old(subject)
      ensures message == if field == Message then value else old(message)
    {
      match field
      case Email => email := value;
      case Subject => subject := value;
      case Message => message := value;
    }

    /**
     * "Submit Query": after the checks, a confirmed reply clears the subject
     * and the message and keeps the email; any other reply leaves the form
     * as it was.
     */
    method Submit(matchesEmail: string -> bool, reply: Call<CustomerQueryResponse>)
      returns (sent: Result<CustomerQueryRequest, QueryError>)
      requires Valid()
      modifies this`subject, this`message, this`isLoading
      ensures Valid()
      ensures sent == QueryCheck(email, old(subject), old(message), matchesEmail)
      ensures sent.Success? && Confirmed(reply) ==> subject == "" && message == ""
      ensures !(sent.Success? && Confirmed(reply)) ==> subject == old(subject) && message == old(message)
    {
      var s, m := subject, message;
      sent := QueryCheck(email, s, m, matchesEmail);
      if sent.Success? {
        isLoading := true;
        if Confirmed(reply) {
          subject := "";
          message := "";
        }
        isLoading := false;
      }
    }
  }
}
