/**
 * The two generation forms. Each collects its fields, refuses to submit
 * without a title (or subject), calls the backend through the API client,
 * and on success puts a new entry at the front of its history list in local
 * storage. The generate button is disabled while a request is outstanding.
 */
module Forms {
  import opened History

  /** The backend's answer as the API client returns it: the generated content, or a thrown error. */
  datatype ApiReply = Generated(content: string) | Failed

  datatype BlogRequest = BlogRequest(title: string, tone: string, length: int, keywords: string)

  datatype EmailRequest = EmailRequest(subject: string, tone: string, length: int, context: string)

  /** What a click on the generate button led to. */
  datatype Submission = Refused | Succeeded | GenerationFailed

  /**
   * The API client, seen from the forms: every call is recorded, and every
   * call is answered with `reply`, which the backend decides.
   */
  class Api {
    var blogCalls: seq<BlogRequest>
    var emailCalls: seq<EmailRequest>
    var reply: ApiReply

    constructor (reply: ApiReply)
      ensures blogCalls == [] && emailCalls == [] && this.reply == reply
    {
      blogCalls := [];
      emailCalls := [];
      this.reply := reply;
    }

    method GenerateBlog(request: BlogRequest) returns (r: ApiReply)
      modifies this`blogCalls
      ensures blogCalls == old(blogCalls) + [request]
      ensures r == reply
    {
      blogCalls := blogCalls + [request];
      r := reply;
    }

    method GenerateEmail(request: EmailRequest) returns (r: ApiReply)
      modifies this`emailCalls
      ensures emailCalls == old(emailCalls) + [request]
      ensures r == reply
    {
      emailCalls := emailCalls + [request];
      r := reply;
    }
  }

  /** A value a slider from `min` to `max` in steps of `step` can deliver. */
  predicate OnSlider(v: int, min: int, max: int, step: int)
    requires step > 0
  {
    min <= v <= max && (v - min) % step == 0
  }

  /** `s || "None"`: an optional field that was left empty is recorded as "None". */
  function OrNone(s: string): (r: string)
    ensures s == "" ==> r == "None"
    ensures s != "" ==> r == s
  {
    if s == "" then "None" else s
  }

  class BlogForm {
    const storage: LocalStorage
    var title: string
    var tone: string
    var length: int
    var keywords: string
    var isGenerating: bool
    var generatedBlog: string

    /** The length comes from a slider from 100 to 2000 words in steps of 100. */
    ghost predicate Valid()
      reads this
    {
      OnSlider(length, 100, 2000, 100)
    }

    constructor (storage: LocalStorage)
      ensures Valid()
      ensures this.storage == storage
      ensures title == "" && tone == "informative" && length == 500 && keywords == ""
      ensures !isGenerating && generatedBlog == ""
    {
      this.storage := storage;
      title, tone, length, keywords := "", "informative", 500, "";
      isGenerating, generatedBlog := false, "";
    }

    method SetLength(v: int)
      requires OnSlider(v, 100, 2000, 100)
      modifies this`length
      ensures length == v && Valid()
    {
      length := v;
    }

    /**
     * The generate button. Without a title nothing is called and nothing is
     * written; otherwise the API is called once with the form's fields, and
     * only a successful answer changes the stored history.
     */
    method GenerateBlog(api: Api, now: int, date: string) returns (outcome: Submission)
      requires Valid()
      requires !isGenerating  // the button is disabled while generating
      modifies this`isGenerating, this`generatedBlog, storage`blogHistory, api`blogCalls
      ensures Valid()
      ensures !isGenerating
      ensures title == "" ==>
        && outcome == Refused
        && api.blogCalls == old(api.blogCalls)
        && storage.blogHistory == old(storage.blogHistory)
        && generatedBlog == old(generatedBlog)
      ensures title != "" ==>
        api.blogCalls == old(api.blogCalls) + [BlogRequest(title, tone, length, keywords)]
      ensures title != "" && api.reply.Generated? ==>
        && outcome == Succeeded
        && generatedBlog == api.reply.content
        && storage.blogHistory ==
             [BlogEntry(now, title, tone, length, OrNone(keywords), api.reply.content, date)]
             + old(storage.blogHistory)
      ensures title != "" && api.reply.Failed? ==>
        && outcome == GenerationFailed
        && generatedBlog == ""
        && storage.blogHistory == old(storage.blogHistory)
    {
      if title == "" {
        return Refused;
      }
      isGenerating := true;
      generatedBlog := "";
      var response := api.GenerateBlog(BlogRequest(title, tone, length, keywords));
      match response {
        case Generated(content) =>
          generatedBlog := content;
          var history := storage.blogHistory;
          var newBlog := BlogEntry(now, title, tone, length, OrNone(keywords), content, date);
          storage.blogHistory := [newBlog] + history;
          outcome := Succeeded;
        case Failed =>
          outcome := GenerationFailed;
      }
      isGenerating := false;
    }
  }

  class EmailForm {
    const storage: LocalStorage
    var subject: string
    var tone: string
    var length: int
    var context: string
    var isGenerating: bool
    var generatedEmail: string

    /** The length comes from a slider from 50 to 1000 words in steps of 50. */
    ghost predicate Valid()
      reads this
    {
      OnSlider(length, 50, 1000, 50)
    }

    constructor (storage: LocalStorage)
      ensures Valid()
      ensures this.storage == storage
      ensures subject == "" && tone == "formal" && length == 150 && context == ""
      ensures !isGenerating && generatedEmail == ""
    {
      this.storage := storage;
      subject, tone, length, context := "", "formal", 150, "";
      isGenerating, generatedEmail := false, "";
    }

    method SetLength(v: int)
      requires OnSlider(v, 50, 1000, 50)
      modifies this`length
      ensures length == v && Valid()
    {
      length := v;
    }

    /**
     * The generate button. Without a subject nothing is called and nothing is
     * written; otherwise the API is called once with the form's fields, and
     * only a successful answer changes the stored history.
     */
    method GenerateEmail(api: Api, now: int, date: string) returns (outcome: Submission)
      requires Valid()
      requires !isGenerating  // the button is disabled while generating
      modifies this`isGenerating, this`generatedEmail, storage`emailHistory, api`emailCalls
      ensures Valid()
      ensures !isGenerating
      ensures subject == "" ==>
        && outcome == Refused
        && api.emailCalls == old(api.emailCalls)
        && storage.emailHistory == old(storage.emailHistory)
        && generatedEmail == old(generatedEmail)
      ensures subject != "" ==>
        api.emailCalls == old(api.emailCalls) + [EmailRequest(subject, tone, length, context)]
      ensures subject != "" && api.reply.Generated? ==>
        && outcome == Succeeded
        && generatedEmail == api.reply.content
        && storage.emailHistory ==
             [EmailEntry(now, subject, tone, length, OrNone(context), api.reply.content, date)]
             + old(storage.emailHistory)
      ensures subject != "" && api.reply.Failed? ==>
        && outcome == GenerationFailed
        && generatedEmail == ""
        && storage.emailHistory == old(storage.emailHistory)
    {
      if subject == "" {
        return Refused;
      }
      isGenerating := true;
      generatedEmail := "";
      var response := api.GenerateEmail(EmailRequest(subject, tone, length, context));
      match response {
        case Generated(content) =>
          generatedEmail := content;
          var history := storage.emailHistory;
          var newEmail := EmailEntry(now, subject, tone, length, OrNone(context), content, date);
          storage.emailHistory := [newEmail] + history;
          outcome := Succeeded;
        case Failed =>
          outcome := GenerationFailed;
      }
      isGenerating := false;
    }
  }
}
