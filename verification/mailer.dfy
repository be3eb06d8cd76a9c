/** MjmlMailer::format: decides per message whether the body is MJML to
    convert, Twig-rendered MJML to relabel, or anything else to hand to the
    PHP mail formatter it extends. */
module Mailer {
  import opened Wrappers
  import opened Config

  /** Content type of a message whose body is an MJML template. */
  const CONTENT_TYPE_MJML: string := "text/mjml"
  /** Content type of a message whose body Twig has already rendered to HTML. */
  const CONTENT_TYPE_MJML_TWIG: string := "text/mjml+twig"
  const CONTENT_TYPE_HTML: string := "text/html"
  /** The header key, matched exactly (case-sensitively). */
  const CONTENT_TYPE_HEADER: string := "Content-Type"

  /** `$message['body']`: a list of parts on the way in, a single string once
      the MJML branch has collapsed it. */
  datatype Body = Parts(items: seq<string>) | Single(text: string)

  /** The `$message` array: its headers, its body, and every other key
      (`to`, `subject`, `params`, ...) under `fields`. */
  datatype Message = Message(headers: map<string, string>, body: Body, fields: map<string, Value>)

  /** What `format` sends to the logger, without the message text: a warning
      carrying the whole original body, or an error carrying the markup that
      failed and the exception. */
  datatype LogEntry<E> = Warning(body: seq<string>) | RenderFailed(markup: string, cause: E)

  /** The outcome of one `format` call: the returned message, or the
      throwable that escaped it; the log entries in order; and the markup
      handed to the renderer on each call to it. */
  datatype Formatted<E> = Formatted(result: Result<Message, E>, log: seq<LogEntry<E>>, rendered: seq<string>)

  /** How a content type is handled. */
  datatype ContentKind = PlainOrOther | MjmlSource | MjmlPreRendered

  /** `$message['headers']['Content-Type'] ?? ''`. */
  function ContentType(m: Message): string
  {
    if CONTENT_TYPE_HEADER in m.headers then m.headers[CONTENT_TYPE_HEADER] else ""
  }

  /** Exact string comparison against the two MJML content types. */
  function Classify(contentType: string): ContentKind
  {
    if contentType == CONTENT_TYPE_MJML then MjmlSource
    else if contentType == CONTENT_TYPE_MJML_TWIG then MjmlPreRendered
    else PlainOrOther
  }

  /** An MJML-tagged message must carry a non-empty list body. */
  predicate Formattable(m: Message)
  {
    Classify(ContentType(m)) != PlainOrOther ==> m.body.Parts? && |m.body.items| > 0
  }

  /** The first two steps of the MJML branch: the Content-Type header becomes
      `text/html` and the body becomes its first part. Everything else is kept. */
  function Relabel(m: Message): (r: Message)
    requires m.body.Parts? && |m.body.items| > 0
    ensures ContentType(r) == CONTENT_TYPE_HTML
    ensures r.body == Single(m.body.items[0])
    ensures r.fields == m.fields
    ensures r.headers.Keys == m.headers.Keys + {CONTENT_TYPE_HEADER}
    ensures forall h :: h in m.headers && h != CONTENT_TYPE_HEADER ==> r.headers[h] == m.headers[h]
  {
    Message(m.headers[CONTENT_TYPE_HEADER := CONTENT_TYPE_HTML], Single(m.body.items[0]), m.fields)
  }

  /** `format($message)` with the MJML renderer `render` and the inherited
      PhpMail::format as `parent`. `caught(e)` says whether `e` is an
      `\Exception`, which the `catch` handles by logging it and handing the
      already relabelled and collapsed message to `parent`; any other
      throwable escapes `format`. */
  function Format<E>(m: Message, render: string -> Result<string, E>, caught: E -> bool,
                     parent: Message -> Message): (r: Formatted<E>)
    requires Formattable(m)
    // any other content type is pure delegation: no render, no log
    ensures Classify(ContentType(m)) == PlainOrOther ==> r == Formatted(Success(parent(m)), [], [])
    // the renderer runs at most once, only for text/mjml, on the first body part
    ensures |r.rendered| <= 1
    ensures |r.rendered| == 1 <==> ContentType(m) == CONTENT_TYPE_MJML
    ensures |r.rendered| == 1 ==> r.rendered[0] == m.body.items[0]
    // Twig-rendered MJML is relabelled and collapsed, nothing more
    ensures ContentType(m) == CONTENT_TYPE_MJML_TWIG ==> r.result == Success(Relabel(m))
    // converted MJML: the rendered HTML replaces the collapsed body
    ensures ContentType(m) == CONTENT_TYPE_MJML && render(m.body.items[0]).Success? ==>
              r.result == Success(Relabel(m).(body := Single(render(m.body.items[0]).value)))
    // a caught failure: the relabelled, collapsed message goes to the parent formatter
    ensures ContentType(m) == CONTENT_TYPE_MJML && render(m.body.items[0]).Failure? &&
            caught(render(m.body.items[0]).error) ==>
              r.result == Success(parent(Relabel(m)))
    // format returns a message unless an uncaught throwable escaped the renderer
    ensures r.result.Failure? <==>
              ContentType(m) == CONTENT_TYPE_MJML && render(m.body.items[0]).Failure? &&
              !caught(render(m.body.items[0]).error)
    ensures r.result.Failure? ==> r.result.error == render(m.body.items[0]).error
    // the log: a warning with the whole original body iff an MJML body has
    // several parts, then an error with the collapsed markup iff a caught failure
    ensures r.log ==
              (if Classify(ContentType(m)) != PlainOrOther && |m.body.items| > 1
               then [Warning(m.body.items)] else []) +
              (if ContentType(m) == CONTENT_TYPE_MJML && render(m.body.items[0]).Failure? &&
                  caught(render(m.body.items[0]).error)
               then [RenderFailed(m.body.items[0], render(m.body.items[0]).error)] else [])
  {
    var contentType := ContentType(m);
    var kind := Classify(contentType);
    if kind == PlainOrOther then
      Formatted(Success(parent(m)), [], [])
    else
      var warnings := if |m.body.items| > 1 then [Warning(m.body.items)] else [];
      var relabelled := Relabel(m);
      var markup := m.body.items[0];
      if kind == MjmlPreRendered then
        Formatted(Success(relabelled), warnings, [])
      else
        match render(markup)
        case Success(html) => Formatted(Success(relabelled.(body := Single(html))), warnings, [markup])
        case Failure(e) =>
          if caught(e) then
            Formatted(Success(parent(relabelled)), warnings + [RenderFailed(markup, e)], [markup])
          else
            Formatted(Failure(e), warnings, [markup])
  }

  /** A message that came out of either MJML branch without a render failure
      is labelled `text/html`, so formatting it again is plain delegation to
      the parent formatter, whatever renderer is used the second time. */
  lemma FormatTwiceIsPassThrough<E>(m: Message, render: string -> Result<string, E>,
                                    again: string -> Result<string, E>, caught: E -> bool,
                                    parent: Message -> Message)
    requires Formattable(m)
    requires ContentType(m) == CONTENT_TYPE_MJML_TWIG ||
             (ContentType(m) == CONTENT_TYPE_MJML && render(m.body.items[0]).Success?)
    ensures Format(m, render, caught, parent).result.Success?
    ensures Formattable(Format(m, render, caught, parent).result.value)
    ensures var once := Format(m, render, caught, parent).result.value;
            Format(once, again, caught, parent) == Formatted(Success(parent(once)), [], [])
  {
  }
}
