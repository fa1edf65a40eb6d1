/**
  The two requests the set-password operation sends: where they go (a fixed
  path that replaces the path of the configured service address) and what
  their bodies say. Both bodies are built by plain string interpolation, so the
  caller's text appears in them verbatim, with no JSON escaping.
 */
module Wire {
  import opened Wrappers
  import opened Decimal

  const AuthHashPath := "/internal/auth/hash"
  const DatastoreWritePath := "/internal/datastore/writer/write"
  const PostVerb := "POST"
  const JsonContentType := "application/json"

  /** The parts of a service address that setting the path leaves alone are kept as they are. */
  datatype Url = Url(scheme: string, host: string, path: string, rawQuery: string)

  datatype Request = Request(verb: string, url: Url, contentType: string, body: string)

  /** The configured base addresses of the two upstream services. */
  datatype Config = Config(authUrl: Url, datastoreWriterUrl: Url)

  /** Index of the first `c` in `s`, or `|s|` when there is none. */
  function IndexOf(s: string, c: char): (i: nat)
    ensures i <= |s|
    ensures forall j :: 0 <= j < i ==> s[j] != c
    ensures i < |s| ==> s[i] == c
  {
    if |s| == 0 then 0 else if s[0] == c then 0 else 1 + IndexOf(s[1..], c)
  }

  lemma {:induction false} IndexOfConcat(a: string, b: string, c: char)
    ensures IndexOf(a + b, c) == if IndexOf(a, c) < |a| then IndexOf(a, c) else |a| + IndexOf(b, c)
    decreases |a|
  {
    if |a| > 0 && a[0] != c {
      assert (a + b)[1..] == a[1..] + b;
      IndexOfConcat(a[1..], b, c);
    } else if |a| == 0 {
      assert a + b == b;
    }
  }

  // ---- hash request -------------------------------------------------------

  const HashBodyHead := "{\"toHash\": \""
  const HashBodyTail := "\"}"

  /** `{"toHash": "<password>"}` with the password copied in unchanged. */
  function HashRequestBody(password: string): (body: string)
    ensures |body| == |HashBodyHead| + |password| + |HashBodyTail|
    ensures body[..|HashBodyHead|] == HashBodyHead
    ensures body[|HashBodyHead|..|HashBodyHead| + |password|] == password
    ensures body[|body| - |HashBodyTail|..] == HashBodyTail
  {
    HashBodyHead + password + HashBodyTail
  }

  /** The text between the fixed head and tail of a hash request body. */
  function HashBodyPassword(body: string): Option<string>
  {
    if |body| >= |HashBodyHead| + |HashBodyTail|
       && body[..|HashBodyHead|] == HashBodyHead
       && body[|body| - |HashBodyTail|..] == HashBodyTail
    then Some(body[|HashBodyHead|..|body| - |HashBodyTail|])
    else None
  }

  /** A body is the hash request body of `password` exactly when reading it back gives `password`. */
  lemma HashBodyInverse(body: string, password: string)
    ensures HashBodyPassword(body) == Some(password) <==> HashRequestBody(password) == body
  {
    if HashBodyPassword(body) == Some(password) {
      assert body == body[..|HashBodyHead|] + body[|HashBodyHead|..|body| - |HashBodyTail|] + body[|body| - |HashBodyTail|..];
    }
  }

  /**
    Nothing in the password is escaped: the first `"` character after the
    opening quote of the `toHash` value is the password's own first `"`
    character, and the template's closing `"` is that first one only when the
    password contains none. Where a JSON reader ends the value also depends on
    backslashes, which this lemma does not look at.
   */
  lemma HashBodyFirstQuote(password: string)
    ensures IndexOf(HashRequestBody(password)[|HashBodyHead|..], '"') == IndexOf(password, '"')
  {
    assert HashRequestBody(password)[|HashBodyHead|..] == password + HashBodyTail;
    IndexOfConcat(password, HashBodyTail, '"');
  }

  /** The request `hashPassword` builds: POST of the hash body to the auth service's hash path. */
  function HashRequest(cfg: Config, password: string): (req: Request)
    ensures req.verb == PostVerb && req.contentType == JsonContentType
    ensures req.url.path == AuthHashPath
    ensures req.url.(path := cfg.authUrl.path) == cfg.authUrl
    ensures HashBodyPassword(req.body) == Some(password)
  {
    HashBodyInverse(HashRequestBody(password), password);
    Request(PostVerb, cfg.authUrl.(path := AuthHashPath), JsonContentType, HashRequestBody(password))
  }

  // ---- datastore write request ----------------------------------------------

  const FqidCollection := "user/"

  /** The fully-qualified id `user/<id>` with Go's `%d` rendering of the id. */
  function Fqid(userId: int): (fqid: string)
    ensures |fqid| > |FqidCollection| && fqid[..|FqidCollection|] == FqidCollection
  {
    FqidCollection + FormatInt(userId)
  }

  /** The user id a `user/<id>` reference names. */
  function FqidUserId(fqid: string): Option<int>
  {
    if |fqid| >= |FqidCollection| && fqid[..|FqidCollection|] == FqidCollection
    then ParseInt(fqid[|FqidCollection|..])
    else None
  }

  /** The digits after `user/` parse back to the id they render, and nothing else parses to it. */
  lemma FqidInverse(fqid: string, userId: int)
    ensures FqidUserId(fqid) == Some(userId) <==> Fqid(userId) == fqid
  {
    if |fqid| >= |FqidCollection| && fqid[..|FqidCollection|] == FqidCollection {
      ParseFormatInverse(fqid[|FqidCollection|..], userId);
      assert fqid == FqidCollection + fqid[|FqidCollection|..];
    }
    if Fqid(userId) == fqid {
      assert fqid[|FqidCollection|..] == FormatInt(userId);
      ParseFormatInverse(FormatInt(userId), userId);
    }
  }

  // The fixed text of the write template before the id: the envelope's members, then the event's.
  const WriteBodyHead := EnvelopeOpen + EventHead
  const EventHead := "{\"type\":\"update\",\"fqid\":\"user/"
  const WriteBodyMiddle := "\",\"fields\":{\"password\":\""
  const WriteBodyTail := "\"}}]}"

  /** The datastore write envelope of `setPassword`, with the id and the hash interpolated. */
  function WriteRequestBody(userId: int, hash: string): (body: string)
    ensures |body| > |WriteBodyHead| + |WriteBodyMiddle| + |hash| + |WriteBodyTail|
    ensures body[..|WriteBodyHead|] == WriteBodyHead
    ensures body[|body| - |WriteBodyTail| - |hash|..|body| - |WriteBodyTail|] == hash
    ensures body[|body| - |WriteBodyTail|..] == WriteBodyTail
  {
    FillTemplate(WriteBodyHead, FormatInt(userId), WriteBodyMiddle, hash, WriteBodyTail)
  }

  /**
    Splits `head + hole1 + middle + hole2 + tail` back into its two holes, where
    the first hole ends at the first quote after `head`; `None` for text of any
    other shape.
   */
  function SplitTemplate(body: string, head: string, middle: string, tail: string): Option<(string, string)>
  {
    if |body| < |head| || body[..|head|] != head then None
    else
      var rest := body[|head|..];
      var i := IndexOf(rest, '"');
      var after := rest[i..];
      if |after| < |middle| + |tail| || after[..|middle|] != middle || after[|after| - |tail|..] != tail
      then None
      else Some((rest[..i], after[|middle|..|after| - |tail|]))
  }

  function FillTemplate(head: string, t: string, middle: string, h: string, tail: string): string
  {
    head + (t + (middle + (h + tail)))
  }

  lemma {:induction false} SplitTemplateFill(head: string, t: string, middle: string, h: string, tail: string)
    requires IndexOf(t, '"') == |t|
    requires |middle| > 0 && middle[0] == '"'
    ensures SplitTemplate(FillTemplate(head, t, middle, h, tail), head, middle, tail) == Some((t, h))
  {
    var after := middle + (h + tail);
    var rest := t + after;
    var body := FillTemplate(head, t, middle, h, tail);
    assert body[..|head|] == head && body[|head|..] == rest;
    assert IndexOf(rest, '"') == |t| by {
      assert IndexOf(after, '"') == 0 by {
        assert after[0] == '"';
      }
      IndexOfConcat(t, after, '"');
    }
    assert rest[..|t|] == t && rest[|t|..] == after;
    assert SplitTemplate(body, head, middle, tail) == Some((t, h)) by {
      TemplateHoleFacts(middle, h, tail);
    }
  }

  lemma TemplateHoleFacts(middle: string, h: string, tail: string)
    ensures (middle + (h + tail))[..|middle|] == middle
    ensures (middle + (h + tail))[|middle| + |h|..] == tail
    ensures (middle + (h + tail))[|middle|..|middle| + |h|] == h
  {
  }

  lemma {:induction false} SplitTemplateSound(body: string, head: string, middle: string, tail: string, t: string, h: string)
    requires SplitTemplate(body, head, middle, tail) == Some((t, h))
    ensures body == FillTemplate(head, t, middle, h, tail)
  {
    var rest := body[|head|..];
    var i := IndexOf(rest, '"');
    var after := rest[i..];
    assert after == after[..|middle|] + (after[|middle|..|after| - |tail|] + after[|after| - |tail|..]);
    assert rest == rest[..i] + after;
    assert body == body[..|head|] + rest;
  }

  /** Reads the user id and the hash back out of a write body; `None` for any other text. */
  function WriteBodyFields(body: string): Option<(int, string)>
  {
    match SplitTemplate(body, WriteBodyHead, WriteBodyMiddle, WriteBodyTail)
    case None => None
    case Some((idText, hash)) =>
      match ParseInt(idText)
      case None => None
      case Some(id) => Some((id, hash))
  }

  lemma FormatIntHasNoQuote(n: int)
    ensures IndexOf(FormatInt(n), '"') == |FormatInt(n)|
  {
  }

  /**
    A body is the write body for `(userId, hash)` exactly when reading it back
    gives that id and that hash: the id's digits end at the first quote, and the
    hash is everything between the fixed middle and the fixed tail.
   */
  lemma WriteBodyInverse(body: string, userId: int, hash: string)
    ensures WriteBodyFields(body) == Some((userId, hash)) <==> WriteRequestBody(userId, hash) == body
  {
    if WriteRequestBody(userId, hash) == body {
      FormatIntHasNoQuote(userId);
      SplitTemplateFill(WriteBodyHead, FormatInt(userId), WriteBodyMiddle, hash, WriteBodyTail);
      FormatIntRoundTrip(userId);
    }
    if WriteBodyFields(body) == Some((userId, hash)) {
      var parts := SplitTemplate(body, WriteBodyHead, WriteBodyMiddle, WriteBodyTail);
      SplitTemplateSound(body, WriteBodyHead, WriteBodyMiddle, WriteBodyTail, parts.value.0, hash);
      ParseFormatInverse(parts.value.0, userId);
    }
  }

  /** The request `setPassword` builds: POST of the write body to the writer's write path. */
  function WriteRequest(cfg: Config, userId: int, hash: string): (req: Request)
    ensures req.verb == PostVerb && req.contentType == JsonContentType
    ensures req.url.path == DatastoreWritePath
    ensures req.url.(path := cfg.datastoreWriterUrl.path) == cfg.datastoreWriterUrl
    ensures WriteBodyFields(req.body) == Some((userId, hash))
  {
    WriteBodyInverse(WriteRequestBody(userId, hash), userId, hash);
    Request(PostVerb, cfg.datastoreWriterUrl.(path := DatastoreWritePath), JsonContentType,
            WriteRequestBody(userId, hash))
  }

  // ---- the write envelope as a typed structure ----------------------------

  /** One string-valued member `"key":"value"` of a JSON object. */
  datatype Member = Member(key: string, value: string)

  /** One event of a datastore write: its type, its target and the fields it sets. */
  datatype WriteEvent = WriteEvent(kind: string, fqid: string, fields: seq<Member>)

  /** The batched write request of the datastore writer. */
  datatype WriteEnvelope = WriteEnvelope(
    userId: int, information: seq<Member>, lockedFields: seq<Member>, events: seq<WriteEvent>)

  /** The envelope for a password update: acting user 0, no metadata, one update event. */
  function PasswordEnvelope(userId: int, hash: string): WriteEnvelope
  {
    WriteEnvelope(0, [], [], [WriteEvent("update", Fqid(userId), [Member("password", hash)])])
  }

  /** Comma-separated rendering; keys and values are written without escaping, as the template does. */
  function RenderMembers(ms: seq<Member>): string
  {
    if |ms| == 0 then ""
    else (if |ms| == 1 then "" else RenderMembers(ms[..|ms| - 1]) + ",")
         + "\"" + ms[|ms| - 1].key + "\":\"" + ms[|ms| - 1].value + "\""
  }

  function RenderObject(ms: seq<Member>): string
  {
    "{" + RenderMembers(ms) + "}"
  }

  function RenderEvent(e: WriteEvent): string
  {
    "{\"type\":\"" + e.kind + "\",\"fqid\":\"" + e.fqid + "\",\"fields\":" + RenderObject(e.fields) + "}"
  }

  function RenderEvents(es: seq<WriteEvent>): string
  {
    if |es| == 0 then ""
    else (if |es| == 1 then "" else RenderEvents(es[..|es| - 1]) + ",") + RenderEvent(es[|es| - 1])
  }

  /**
    The envelope in the writer's JSON layout, written without escaping: the
    text is valid JSON only when no key or value needs escaping.
   */
  function RenderEnvelope(w: WriteEnvelope): string
  {
    "{\"user_id\":" + FormatInt(w.userId)
    + ",\"information\":" + RenderObject(w.information)
    + ",\"locked_fields\":" + RenderObject(w.lockedFields)
    + ",\"events\":[" + RenderEvents(w.events) + "]}"
  }

  /**
    The interpolated write body is the rendering of the password envelope:
    acting user 0, empty `information` and `locked_fields`, and exactly one
    `update` event on `user/<id>` whose only field is `password` set to the hash.
   */
  lemma WriteBodyIsPasswordEnvelope(userId: int, hash: string)
    ensures WriteRequestBody(userId, hash) == RenderEnvelope(PasswordEnvelope(userId, hash))
    ensures |PasswordEnvelope(userId, hash).events| == 1
  {
    var f := FormatInt(userId);
    var ev := PasswordEnvelope(userId, hash).events[0];
    PasswordEventRendering(userId, hash);
    EmptyEnvelopeRendering(ev);
    WriteBodyTailPieces();
    EnvelopeRegroup(EnvelopeOpen, EventHead, f, WriteBodyMiddle, hash, "\"}}", "]}");
  }

  // Long literals are written as joins of shorter ones: that keeps the prover's literal comparisons cheap.
  const EnvelopeOpen := "{\"user_id\":0,\"information\":{}" + ",\"locked_fields\":{},\"events\":["

  lemma EnvelopeRegroup(a: string, b: string, f: string, m: string, h: string, c: string, d: string)
    ensures a + (b + f + (m + (h + c))) + d == a + b + (f + (m + (h + (c + d))))
  {
  }

  lemma EventRegroup(p1: string, k: string, p2: string, c: string, f: string, p3: string,
                     o1: string, h: string, o2: string, p4: string)
    ensures p1 + k + p2 + (c + f) + p3 + (o1 + h + o2) + p4 == (p1 + k + p2 + c) + f + ((p3 + o1) + (h + (o2 + p4)))
  {
  }

  lemma WriteBodyTailPieces()
    ensures "\"}}" + "]}" == WriteBodyTail
  {
  }

  lemma EventHeadPieces()
    ensures "{\"type\":\"" + "update" + "\",\"fqid\":\"" + "user/" == EventHead
  {
  }

  lemma MiddlePieces()
    ensures "\",\"fields\":" + "{\"password\":\"" == WriteBodyMiddle
  {
  }

  lemma PasswordEventRendering(userId: int, hash: string)
    ensures RenderEvent(WriteEvent("update", Fqid(userId), [Member("password", hash)]))
         == EventHead + FormatInt(userId) + (WriteBodyMiddle + (hash + "\"}}"))
  {
    PasswordFieldsRendering(hash);
    EventHeadPieces();
    MiddlePieces();
    assert "\"}" + "}" == "\"}}";
    EventRegroup("{\"type\":\"", "update", "\",\"fqid\":\"", "user/", FormatInt(userId), "\",\"fields\":",
                 "{\"password\":\"", hash, "\"}", "}");
  }

  lemma PasswordFieldsRendering(hash: string)
    ensures RenderObject([Member("password", hash)]) == "{\"password\":\"" + hash + "\"}"
  {
    assert RenderMembers([Member("password", hash)]) == "\"password\":\"" + hash + "\"";
  }

  lemma EmptyEnvelopeRendering(ev: WriteEvent)
    ensures RenderEnvelope(WriteEnvelope(0, [], [], [ev])) == EnvelopeOpen + RenderEvent(ev) + "]}"
  {
    assert RenderEvents([ev]) == RenderEvent(ev);
    assert FormatInt(0) == "0";
    assert RenderObject([]) == "{}";
    EnvelopeOpenPieces();
  }

  lemma EnvelopeOpenPieces()
    ensures "{\"user_id\":" + "0" + ",\"information\":" + "{}" + ",\"locked_fields\":" + "{}" + ",\"events\":["
         == EnvelopeOpen
  {
    assert "{\"user_id\":" + "0" + ",\"information\":" + "{}" == "{\"user_id\":0,\"information\":{}";
    assert ",\"locked_fields\":" + "{}" + ",\"events\":[" == ",\"locked_fields\":{},\"events\":[";
  }
}
