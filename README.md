# LexiFlow generation core, modelled in Dafny

LexiFlow is a web application that generates blog posts and emails with a
large language model. This project models its sequential core:

- **The email generation endpoint** (`emailgen.dfy`, module `EmailGen`): the
  request is checked for a subject. Then the prompt is built from a template
  with defaults for tone and length, plus an optional context sentence. The
  provider is asked once. A fixed text stands in when the provider answers
  without content. The email is saved (subject, content, author = caller), its
  id is pushed onto the caller's `emails` list, and the handler answers with a
  status and a JSON body.
- **The generation forms** (`forms.dfy`, module `Forms`): `BlogForm` and
  `EmailForm` refuse to submit without a title or subject. They call the API
  once and, only on success, put a new entry at the front of their history
  list in local storage, with "None" for empty keywords or context. Their
  length sliders keep the length on the slider's grid.
- **The blog history page** (`history.dfy`, module `History`): the stored
  list, the page's copy of it, and the case-insensitive search over title,
  content and keywords. Delete-by-id and clear are here too.
- **The content formatter** (`formatter.dfy`, module `Formatter`):
  `formatBlogContent` is the fixed pipeline bold, then `#`, `##` and `###`
  headings, then `<br>`. Each stage is a scanner that follows the regular
  expression's rules exactly. A lazy `(.*?)` stops at the nearest closing
  `**` and never crosses a line terminator. With the `m` flag, `^` and `$`
  anchor at every line. The email view's `\n` to `<br />` rewrite is also here.
- Support: `text.dfy` models the JavaScript string operations the code uses
  (`toLowerCase`, `includes`, `trim`, integers in template literals).
  `lists.dfy` models `Array.prototype.filter`. `wrappers.dfy` holds `Option`.

Browser storage is a `LocalStorage` object with one field per key, holding
the decoded list. The API client and the language-model provider are objects
whose answers are inputs, and each records the calls made to it, so "no call
was made" and "called once with this request" can be stated. The document
database's failures are given as fault flags, and its contracts state what
was written and that a refused write leaves the stored documents unchanged.
The clock (`Date.now()`, the ISO date) enters as parameters.

The handler checks only that a subject is present, so a subject longer than
the schema's 150 characters fails at save time and is answered with 500
(`EmailGen.Status`).

`formatBlogContent` appears twice in the source, in
`Frontend/src/components/blog/BlogHistory.tsx` and in
`Frontend/src/components/blog/BlogForm.tsx`. The two are the same chain of
replacements, so the model defines it once (`Formatter.FormatBlogContent`),
and the lemmas about it hold for both copies.

## Model

| member | source | states |
|---|---|---|
| `Text.Lower` | Frontend/src/components/blog/BlogHistory.tsx:53-55 | `toLowerCase` keeps the length and lowers each character on its own |
| `Text.LowerIdempotent` | Frontend/src/components/blog/BlogHistory.tsx:53-55 | lowering an already lowered string changes nothing |
| `Text.ContainsIff` | Frontend/src/components/blog/BlogHistory.tsx:53-55 | the left-to-right `includes` scan succeeds exactly when the term occurs at some index |
| `Text.ContainsEmpty` | Frontend/src/components/blog/BlogHistory.tsx:53-55 | every string includes the empty string |
| `Text.TrimStart` | backend/src/controllers/EmailGen.js:17 | the kept suffix starts at the first non-white-space character; everything dropped is white space |
| `Text.TrimEnd` | backend/src/controllers/EmailGen.js:17 | the kept prefix ends at the last non-white-space character; everything dropped is white space |
| `Text.TrimEmptyIffBlank` | backend/src/controllers/EmailGen.js:17 | `trim()` is empty exactly when the string is all white space |
| `Text.NatToString` | backend/src/controllers/EmailGen.js:15 | a number renders as a non-empty run of decimal digits with no leading zero |
| `Text.NatToStringRoundTrip` | backend/src/controllers/EmailGen.js:15 | the digits of a natural number read back as that number |
| `Text.IntToStringRoundTrip` | backend/src/controllers/EmailGen.js:15 | the length written into the prompt reads back as the length used, negative numbers included |
| `Lists.Filter` | Frontend/src/components/blog/BlogHistory.tsx:64 | `filter` keeps only accepted elements and never grows the list |
| `Lists.FilterIsSubsequence` | Frontend/src/components/blog/BlogHistory.tsx:52-56 | the kept elements appear in the input's order |
| `Lists.FilterCount` | Frontend/src/components/blog/BlogHistory.tsx:52-56 | an accepted value is kept as often as it occurs; a rejected one is dropped entirely |
| `Lists.FilterKeepsAll` | Frontend/src/components/blog/BlogHistory.tsx:64 | a filter that accepts every element returns the list unchanged |
| `Lists.FilterCommute` | Frontend/src/components/blog/BlogHistory.tsx:50-67 | two filters give the same result in either order |
| `Formatter.FindClose` | Frontend/src/components/blog/BlogHistory.tsx:96 | the lazy `(.*?)` stops at the nearest closing `**` that no line terminator separates from the opening; none is found only when no such `**` exists |
| `Formatter.BoldKeepsLines` | Frontend/src/components/blog/BlogHistory.tsx:96 | the bold stage never adds, removes or reorders line terminators |
| `Formatter.BoldWithoutAsterisk` | Frontend/src/components/blog/BlogHistory.tsx:96 | text without `*` passes the bold stage unchanged |
| `Formatter.BoldPlainPrefix` | Frontend/src/components/blog/BlogHistory.tsx:96 | a prefix without `*` is copied and the bold scan resumes after it |
| `Formatter.BoldSpan` | Frontend/src/components/blog/BlogHistory.tsx:96 | a one-line `**x**` becomes `<strong>x</strong>` when `x` has no `**` and does not end in `*` |
| `Formatter.LineEnd` | Frontend/src/components/blog/BlogHistory.tsx:99 | the first line ends at the first line terminator, or at the end of the text |
| `Formatter.HeadingSingleLine` | Frontend/src/components/blog/BlogHistory.tsx:99-101 | text without a line terminator is rewritten as a single line |
| `Formatter.HeadingWithoutHash` | Frontend/src/components/blog/BlogHistory.tsx:99-101 | text without `#` passes every heading stage unchanged |
| `Formatter.HeadingSkipsLine` | Frontend/src/components/blog/BlogHistory.tsx:99-101 | a line whose first character is not the marker's is left alone |
| `Formatter.HeadingWrap` | Frontend/src/components/blog/BlogHistory.tsx:99-101 | a one-line `marker body` becomes the body wrapped whole in the heading tags |
| `Formatter.ReplaceNewlines` | Frontend/src/components/blog/BlogHistory.tsx:104 | no `\n` is left when the replacement holds none |
| `Formatter.ReplaceNewlinesAppend` | Frontend/src/components/blog/BlogHistory.tsx:104 | replacing in a concatenation replaces in each part, so every other character keeps its place |
| `Formatter.ReplaceNewlinesPlain` | Frontend/src/components/blog/BlogHistory.tsx:104 | text without `\n` is unchanged |
| `Formatter.ReplaceNewlinesLength` | Frontend/src/components/blog/BlogHistory.tsx:104 | each `\n` grows the text by the replacement's width minus one |
| `Formatter.FormatBlogContent` | Frontend/src/components/blog/BlogHistory.tsx:94-107 | the formatted content contains no `\n` |
| `Formatter.PlainTextUnchanged` | Frontend/src/components/blog/BlogHistory.tsx:96-104 | content without `*`, `#` or `\n` is shown exactly as it is |
| `Formatter.FormatsBoldSpan` | Frontend/src/components/blog/BlogHistory.tsx:96-104 | a one-line `**x**` is shown as `<strong>x</strong>` |
| `Formatter.StagesKeepTaggedLine` | Frontend/src/components/blog/BlogForm.tsx:92-95 | a one-line text starting with `<` passes every heading stage and the `<br>` stage unchanged |
| `Formatter.BoldBeforeHeading` | Frontend/src/components/blog/BlogForm.tsx:91-92 | bold runs before headings, so `# **x**` is shown as `<h1><strong>x</strong></h1>` |
| `Formatter.LevelTwoHeading` | Frontend/src/components/blog/BlogForm.tsx:92-93 | the level-1 stage leaves `## ` lines alone, so `## x` is shown as `<h2>x</h2>` |
| `Formatter.RenderEmail` | Frontend/src/components/blog/EmailForm.tsx:185 | the rendered email has no `\n`, grows by five characters per `\n`, and equals the email when it has no `\n` |
| `History.Search` | Frontend/src/components/blog/BlogHistory.tsx:50-61 | an empty term shows the whole history in order; otherwise the view keeps, in order, exactly the entries whose lowered title, content or keywords include the lowered term |
| `History.EmptyTermSearchIsFilter` | Frontend/src/components/blog/BlogHistory.tsx:51-60 | the empty-term shortcut agrees with filtering, since every entry matches the empty term |
| `History.SearchIgnoresCase` | Frontend/src/components/blog/BlogHistory.tsx:53-55 | a term and its lower-case form give identical results |
| `History.WithoutId` | Frontend/src/components/blog/BlogHistory.tsx:64 | deleting removes exactly the entries with the id and keeps the rest in order; an absent id leaves the list unchanged |
| `History.DeleteCommutesWithSearch` | Frontend/src/components/blog/BlogHistory.tsx:50-67 | deleting and then searching gives the same view as searching and then deleting |
| `History.BlogHistory.constructor` | Frontend/src/components/blog/BlogHistory.tsx:44-48 | mounting loads the stored list into the history and the filtered view |
| `History.BlogHistory.ApplySearch` | Frontend/src/components/blog/BlogHistory.tsx:50-61 | the search effect sets the filtered view to the search of the history by the term |
| `History.BlogHistory.SetSearchTerm` | Frontend/src/components/blog/BlogHistory.tsx:140-141 | typing a term updates it and the filtered view follows |
| `History.BlogHistory.DeleteBlog` | Frontend/src/components/blog/BlogHistory.tsx:63-67 | the history, the filtered view and the stored list all become the old history without the id |
| `History.BlogHistory.ClearHistory` | Frontend/src/components/blog/BlogHistory.tsx:74-77 | the history, the filtered view and the stored list all become empty |
| `Forms.OrNone` | Frontend/src/components/blog/BlogForm.tsx:59 | an optional field left empty is recorded as "None", and a non-empty one is recorded verbatim |
| `Forms.BlogForm.constructor` | Frontend/src/components/blog/BlogForm.tsx:27-32 | the form starts with an empty title, tone "informative", length 500, no keywords, not generating |
| `Forms.BlogForm.SetLength` | Frontend/src/components/blog/BlogForm.tsx:134-139 | the length stays within 100 to 2000 in steps of 100 |
| `Forms.BlogForm.GenerateBlog` | Frontend/src/components/blog/BlogForm.tsx:36-78 | an empty title makes no call and writes nothing. Otherwise the API is called once with the form's fields. On success the stored history becomes the new entry (keywords or "None", the response's content) followed by the old history. On failure storage is untouched. `isGenerating` is false at the end, and the length stays on the slider's grid |
| `Forms.EmailForm.constructor` | Frontend/src/components/blog/EmailForm.tsx:26-31 | the form starts with an empty subject, tone "formal", length 150, no context, not generating |
| `Forms.EmailForm.SetLength` | Frontend/src/components/blog/EmailForm.tsx:124-130 | the length stays within 50 to 1000 in steps of 50 |
| `Forms.EmailForm.GenerateEmail` | Frontend/src/components/blog/EmailForm.tsx:35-77 | an empty subject makes no call and writes nothing. Otherwise the API is called once. On success the stored history becomes the new entry (context or "None") followed by the old history. On failure storage is untouched. `isGenerating` is false at the end, and the length stays on the slider's grid |
| `EmailGen.ToneOrDefault` | backend/src/controllers/EmailGen.js:15 | the prompt always names a tone: the request's when non-empty, "formal" otherwise |
| `EmailGen.LengthOrDefault` | backend/src/controllers/EmailGen.js:15 | an absent length or a length of 0 becomes 150; any other length is kept |
| `EmailGen.PromptContext` | backend/src/controllers/EmailGen.js:15-19 | the prompt starts with the template. The context sentence is added exactly when the context has a non-white-space character, and then it carries the context verbatim |
| `EmailGen.BuildPrompt` | backend/src/controllers/EmailGen.js:14-19 | building the prompt with `+=` yields the templated prompt |
| `EmailGen.EmailContent` | backend/src/controllers/EmailGen.js:32 | the email text is never empty: the first choice's content when present and non-empty, else "Failed to generate email content" |
| `EmailGen.PushEmail` | backend/src/controllers/EmailGen.js:41 | the caller's id list gains the new id at its end; every other user is unchanged; a missing user changes nothing |
| `EmailGen.Database.NewId` | backend/src/controllers/EmailGen.js:34-38 | a new document gets an id no stored email has |
| `EmailGen.Database.Save` | backend/src/models/EmailSchema.js:3-17 | a record failing the schema (required subject and content, subject at most 150 characters) is refused with a validation error and nothing is written |
| `EmailGen.Database.PushEmailId` | backend/src/controllers/EmailGen.js:41 | a successful update appends the id to that user's list |
| `EmailGen.Status` | backend/src/controllers/EmailGen.js:10-53 | 400 exactly when the subject is missing or empty. 200 exactly when the provider answers, the subject fits the schema and both writes succeed. A subject over 150 characters gets 500 |
| `EmailGen.GenerateEmail` | backend/src/controllers/EmailGen.js:5-55 | a missing subject gives 400 "Email subject is required", asks nothing and writes nothing. Otherwise the provider is asked once with the prompt. On success the record (subject, content, author = caller) is stored under a fresh id, the id is pushed onto the caller's list, and the 200 body carries the stored content and that id. Every later failure gives 500 "Failed to generate email", and a failed user update leaves the saved email in place |

## Left out

- Rendering (JSX, styling, the background video), toasts, clipboard writes,
  the two-second "Copied" timer and navigation: user interface and browser
  services with no logic to state. Likewise the backend's logging
  (`console.log` of the prompt and `console.error` of a failure in
  `backend/src/controllers/EmailGen.js`), which changes no state.
- `formatDate`: it depends on the locale data behind `toLocaleDateString`.
- `Date.now()` ids and ISO dates are parameters of the generate methods; the
  clock is not modelled.
- JSON encoding and decoding: storage holds the decoded lists, because the
  round trip belongs to the library.
- The language-model call is an oracle (`EmailGen.Provider`): the request is
  recorded with its fixed settings and the answer is an input. The frontend's
  API client (`lib/api`) is not part of this model; `Forms.Api` records each
  call and returns a given answer.
- The blog generation endpoint, the user schema, the authentication
  middleware, the routes and the application setup are not part of this
  model; the caller's id is a parameter of `EmailGen.GenerateEmail`.
- React's effect scheduling and asynchronous ordering: each handler is one
  atomic step. After `DeleteBlog` the search effect re-runs (`ApplySearch`),
  and `History.DeleteCommutesWithSearch` says what the view then shows.
- Request bodies whose fields have other JSON types (a numeric subject, a
  string length) and non-integer lengths are not modelled; fields are
  optional strings and an optional integer.
- The text of `error.message` in a 500 body is abstracted to its cause
  (provider error, validation error, database error).
- Database failures other than a refused write (timeouts, partial writes) are
  represented only by the two fault flags.
- Text.Lower: maps only the ASCII and Latin-1 capitals; JavaScript's full
  Unicode case mapping, including mappings that change the length, is not
  modelled.
- EmailGen.Database.Save: the 150-character limit counts Unicode scalar
  values, while JavaScript counts UTF-16 code units, so a subject with
  characters outside the Basic Multilingual Plane may pass here and fail
  there.
- EmailGen.Status: inherits the UTF-16 difference of `EmailGen.SchemaValid`
  described for `EmailGen.Database.Save`.
- EmailGen.GenerateEmail: inherits the UTF-16 difference of
  `EmailGen.SchemaValid` described for `EmailGen.Database.Save`.
- Text.NatToString: writes every integer as its exact decimal digits. The
  request body is JSON, so JavaScript holds the length as a double: integers
  above 2^53 may arrive already rounded to the nearest double, `${…}`
  writes the shortest digits that read back as that double followed by
  zeros (2^64 is written `18446744073709552000`), and magnitudes of 10^21 or
  more are written in exponent form (`1e+21`). For a length above 2^53 in
  magnitude the prompt's text can therefore differ.
- Text.IntToStringRoundTrip: describes the exact-digit rendering of an
  unbounded integer; double rounding above 2^53, the shortest-round-trip
  digits and the exponent form from 10^21 are not modelled.
