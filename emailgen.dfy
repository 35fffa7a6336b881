/**
 * The backend's email generation endpoint: validate the request, build the
 * prompt, ask the language-model provider once, fall back to a fixed text when
 * the provider answers without content, save the email, add its id to the
 * caller's list, and answer with a status and a JSON body.
 */
module EmailGen {
  import opened Wrappers
  import opened Text

  type ObjectId = nat

  // ---------------------------------------------------------------------------
  // The request and the prompt

  /** The JSON request body; a field the client left out is None. */
  datatype RequestBody = RequestBody(
    subject: Option<string>, length: Option<int>, tone: Option<string>, context: Option<string>)

  /** A string field is truthy when it is present and not empty. */
  predicate Truthy(s: Option<string>) {
    s.Some? && s.value != ""
  }

  /** `tone || "formal"`. */
  function ToneOrDefault(tone: Option<string>): (r: string)
    ensures r != ""
    ensures Truthy(tone) ==> r == tone.value
    ensures !Truthy(tone) ==> r == "formal"
  {
    if Truthy(tone) then tone.value else "formal"
  }

  /** `length || 150`: an absent length and a length of 0 both fall back to 150. */
  function LengthOrDefault(length: Option<int>): (r: int)
    ensures r != 0
    ensures length.Some? && length.value != 0 ==> r == length.value
    ensures length.None? || length.value == 0 ==> r == 150
  {
    if length.Some? && length.value != 0 then length.value else 150
  }

  /** `context && context.trim()`: present and not only white space. */
  predicate HasContext(context: Option<string>) {
    context.Some? && context.value != "" && Trim(context.value) != ""
  }

  function BasePrompt(subject: string, tone: Option<string>, length: Option<int>): string {
    "Write a " + ToneOrDefault(tone) + " email with the subject \"" + subject
    + "\". It should be around " + IntToString(LengthOrDefault(length)) + " words."
  }

  function ContextSentence(context: string): string {
    " The email should consider the following context: " + context + "."
  }

  /** The prompt sent to the provider: the template, then the context sentence when there is context. */
  function Prompt(subject: string, body: RequestBody): string {
    var base := BasePrompt(subject, body.tone, body.length);
    if HasContext(body.context) then base + ContextSentence(body.context.value) else base
  }

  /**
   * The context sentence is added exactly when the context has a character
   * that is not white space, and then it carries the context verbatim.
   */
  lemma PromptContext(subject: string, body: RequestBody)
    ensures StartsWith(Prompt(subject, body), BasePrompt(subject, body.tone, body.length))
    ensures Prompt(subject, body) == BasePrompt(subject, body.tone, body.length)
            <==> body.context.None? || IsBlank(body.context.value)
    ensures Prompt(subject, body) != BasePrompt(subject, body.tone, body.length) ==>
            Prompt(subject, body) == BasePrompt(subject, body.tone, body.length)
                                     + ContextSentence(body.context.value)
  {
    var base := BasePrompt(subject, body.tone, body.length);
    if body.context.Some? {
      TrimEmptyIffBlank(body.context.value);
      if body.context.value == "" {
        assert IsBlank(body.context.value);
      }
      if HasContext(body.context) {
        var p := base + ContextSentence(body.context.value);
        assert |p| > |base|;
        assert p[..|base|] == base;
      }
    }
  }

  /** The prompt built as the handler builds it: the template, then `+=` of the context sentence. */
  method BuildPrompt(subject: string, body: RequestBody) returns (prompt: string)
    ensures prompt == Prompt(subject, body)
  {
    prompt := BasePrompt(subject, body.tone, body.length);
    if body.context.Some? && body.context.value != "" && Trim(body.context.value) != "" {
      prompt := prompt + ContextSentence(body.context.value);
    }
  }

  // ---------------------------------------------------------------------------
  // The provider

  datatype Message = Message(role: string, content: string)

  datatype ChatRequest = ChatRequest(
    messages: seq<Message>, model: string, temperature: real,
    maxTokens: nat, topP: real, stream: bool)

  /** The one chat-completion request the handler makes for a prompt. */
  function ChatFor(prompt: string): ChatRequest {
    ChatRequest([Message("user", prompt)], "llama3-70b-8192", 0.7, 2048, 1.0, false)
  }

  datatype ChatReply = ChatReply(content: Option<string>)

  datatype Choice = Choice(message: Option<ChatReply>)

  datatype Completion = Completion(choices: seq<Choice>)

  /** The provider's answer: a completion, or an exception with its message. */
  datatype ProviderReply = Answered(completion: Completion) | Threw(message: string)

  /**
   * The language-model provider, as an oracle: every request is recorded and
   * answered with `reply`.
   */
  class Provider {
    var requests: seq<ChatRequest>
    var reply: ProviderReply

    constructor (reply: ProviderReply)
      ensures requests == [] && this.reply == reply
    {
      requests := [];
      this.reply := reply;
    }

    method Create(request: ChatRequest) returns (r: ProviderReply)
      modifies this`requests
      ensures requests == old(requests) + [request]
      ensures r == reply
    {
      requests := requests + [request];
      r := reply;
    }
  }

  const FallbackContent := "Failed to generate email content"

  /** `choices[0]?.message?.content` exists and is not empty. */
  predicate HasContent(c: Completion) {
    |c.choices| > 0 && c.choices[0].message.Some? && Truthy(c.choices[0].message.value.content)
  }

  /**
   * `choices[0]?.message?.content || FallbackContent`: the email text is never
   * empty; it is the first choice's content when there is one, and the fixed
   * fallback text when there is no choice, no message, or no or empty content.
   */
  function EmailContent(c: Completion): (r: string)
    ensures r != ""
    ensures HasContent(c) ==> r == c.choices[0].message.value.content.value
    ensures !HasContent(c) ==> r == FallbackContent
  {
    if |c.choices| > 0 then
      match c.choices[0].message
      case Some(ChatReply(Some(content))) => if content != "" then content else FallbackContent
      case _ => FallbackContent
    else FallbackContent
  }

  // ---------------------------------------------------------------------------
  // The store

  datatype EmailRecord = EmailRecord(subject: string, content: string, author: ObjectId)

  /** A user document, reduced to the list of ids of the emails generated for it. */
  datatype UserRecord = UserRecord(emails: seq<ObjectId>)

  const SubjectMaxLength := 150

  /** The email schema's validators: subject and content required (non-empty), subject at most 150 characters. */
  predicate SchemaValid(r: EmailRecord) {
    r.subject != "" && |r.subject| <= SubjectMaxLength && r.content != ""
  }

  /** Why a step after validation failed. */
  datatype Cause = ProviderError(message: string) | ValidationError | DatabaseError

  /** `$push: { emails: id }` on one user: that user's list grows at the end; nothing else changes. */
  function PushEmail(users: map<ObjectId, UserRecord>, user: ObjectId, id: ObjectId): (r: map<ObjectId, UserRecord>)
    ensures r.Keys == users.Keys
    ensures user in users ==> r[user].emails == users[user].emails + [id]
    ensures forall u :: u in users && u != user ==> r[u] == users[u]
  {
    if user in users then users[user := UserRecord(users[user].emails + [id])] else users
  }

  /** The document database: the email and user collections, and the id generator. */
  class Database {
    var emails: map<ObjectId, EmailRecord>
    var users: map<ObjectId, UserRecord>
    var nextId: ObjectId

    /** Every stored email has an id the generator has already handed out. */
    ghost predicate Valid()
      reads this
    {
      forall id :: id in emails ==> id < nextId
    }

    constructor (users: map<ObjectId, UserRecord>)
      ensures Valid()
      ensures emails == map[] && this.users == users
    {
      emails := map[];
      this.users := users;
      nextId := 0;
    }

    /** A fresh id, as a new document gets on construction. */
    method NewId() returns (id: ObjectId)
      requires Valid()
      modifies this`nextId
      ensures Valid()
      ensures id == old(nextId) && nextId == id + 1
      ensures id !in emails
    {
      id := nextId;
      nextId := nextId + 1;
    }

    /** `save`: the validators run first, then the write, which fails when the database does. */
    method Save(id: ObjectId, record: EmailRecord, fails: bool) returns (error: Option<Cause>)
      requires Valid() && id < nextId
      modifies this`emails
      ensures Valid()
      ensures !SchemaValid(record) ==> error == Some(ValidationError) && emails == old(emails)
      ensures SchemaValid(record) && fails ==> error == Some(DatabaseError) && emails == old(emails)
      ensures SchemaValid(record) && !fails ==> error == None && emails == old(emails)[id := record]
    {
      if !SchemaValid(record) {
        return Some(ValidationError);
      }
      if fails {
        return Some(DatabaseError);
      }
      emails := emails[id := record];
      error := None;
    }

    /** `findByIdAndUpdate(user, { $push: { emails: id } })`; a missing user is not an error. */
    method PushEmailId(user: ObjectId, id: ObjectId, fails: bool) returns (ok: bool)
      modifies this`users
      ensures ok == !fails
      ensures users == if ok then PushEmail(old(users), user, id) else old(users)
    {
      if fails {
        return false;
      }
      users := PushEmail(users, user, id);
      ok := true;
    }
  }

  // ---------------------------------------------------------------------------
  // The handler

  /** The JSON body of a response. */
  datatype Body =
    | Created(success: bool, content: string, emailId: ObjectId)
    | Error(error: string, details: Option<Cause>)

  datatype Response = Response(status: nat, body: Body)

  /** Whether each database write fails (the database being unreachable, say). */
  datatype Faults = Faults(saveFails: bool, updateFails: bool)

  const SubjectRequired := "Email subject is required"
  const GenerationFailure := "Failed to generate email"

  /**
   * The status the handler answers with. A missing subject is the only 400;
   * every failure after that is a 500, including a subject too long for the
   * schema, which the handler itself does not check.
   */
  function Status(body: RequestBody, reply: ProviderReply, faults: Faults): (s: nat)
    ensures s == 200 || s == 400 || s == 500
    ensures s == 400 <==> !Truthy(body.subject)
    ensures Truthy(body.subject) && |body.subject.value| > SubjectMaxLength ==> s == 500
    ensures s == 200 <==>
      && Truthy(body.subject) && |body.subject.value| <= SubjectMaxLength
      && reply.Answered? && !faults.saveFails && !faults.updateFails
  {
    if !Truthy(body.subject) then 400
    else if reply.Threw? then 500
    else
      // the schema's validators do not look at the author
      var record := EmailRecord(body.subject.value, EmailContent(reply.completion), 0);
      if !SchemaValid(record) || faults.saveFails || faults.updateFails then 500 else 200
  }

  /** `generateEmail(req, res)` for a caller authenticated as `userId`. */
  method GenerateEmail(db: Database, provider: Provider, body: RequestBody, userId: ObjectId, faults: Faults)
    returns (res: Response)
    requires db.Valid()
    modifies db, provider`requests
    ensures db.Valid()
    ensures res.status == Status(body, provider.reply, faults)
    ensures res.status != 200 ==> res.body.Error?
    ensures res.status == 500 ==> res.body.error == GenerationFailure
    // A missing subject: 400, nothing asked, nothing written.
    ensures !Truthy(body.subject) ==>
      && res == Response(400, Error(SubjectRequired, None))
      && provider.requests == old(provider.requests)
      && db.emails == old(db.emails) && db.users == old(db.users)
    // Otherwise the provider is asked exactly once, with the prompt.
    ensures Truthy(body.subject) ==>
      provider.requests == old(provider.requests) + [ChatFor(Prompt(body.subject.value, body))]
    ensures Truthy(body.subject) && provider.reply.Threw? ==>
      && res.body == Error(GenerationFailure, Some(ProviderError(provider.reply.message)))
      && db.emails == old(db.emails) && db.users == old(db.users)
    ensures Truthy(body.subject) && provider.reply.Answered? ==>
      var record := EmailRecord(body.subject.value, EmailContent(provider.reply.completion), userId);
      var id := old(db.nextId);
      && id !in old(db.emails)
      && (!SchemaValid(record) ==>
            res.body.details == Some(ValidationError)
            && db.emails == old(db.emails) && db.users == old(db.users))
      && (SchemaValid(record) && faults.saveFails ==>
            res.body.details == Some(DatabaseError)
            && db.emails == old(db.emails) && db.users == old(db.users))
      && (SchemaValid(record) && !faults.saveFails ==>
            db.emails == old(db.emails)[id := record])
      && (SchemaValid(record) && !faults.saveFails && faults.updateFails ==>
            res.body.details == Some(DatabaseError) && db.users == old(db.users))
      && (SchemaValid(record) && !faults.saveFails && !faults.updateFails ==>
            res.body == Created(true, record.content, id)
            && db.users == PushEmail(old(db.users), userId, id))
  {
    if !Truthy(body.subject) {
      return Response(400, Error(SubjectRequired, None));
    }
    var subject := body.subject.value;
    var prompt := BuildPrompt(subject, body);
    var reply := provider.Create(ChatFor(prompt));
    if reply.Threw? {
      return Response(500, Error(GenerationFailure, Some(ProviderError(reply.message))));
    }
    var content := EmailContent(reply.completion);
    var id := db.NewId();
    var record := EmailRecord(subject, content, userId);
    var saveError := db.Save(id, record, faults.saveFails);
    if saveError.Some? {
      return Response(500, Error(GenerationFailure, saveError));
    }
    var pushed := db.PushEmailId(userId, id, faults.updateFails);
    if !pushed {
      return Response(500, Error(GenerationFailure, Some(DatabaseError)));
    }
    res := Response(200, Created(true, content, id));
  }
}
