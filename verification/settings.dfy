/**
 * The widget's configuration, the `state` object of script.js:30-39, and the
 * pure part of the handlers that edit it: the background upload and URL
 * field, the text form, and the share link that encodes the configuration
 * as query parameters and `parseQuery`, which decodes them.
 */
module Settings {
  import opened Wrappers
  import opened Text
  import InstantText

  /**
   * One value of `state`. The target is an instant in milliseconds since the
   * epoch (`null` is `None`); the other fields are the texts the widget keeps,
   * the empty string meaning "not set".
   */
  datatype Config = Config(
    target: Option<int>,
    eventName: string,
    partner: string,
    doneMessage: string,
    bgDataUrl: string,   // data URL of an uploaded image
    bgUrl: string,       // external image URL
    theme: string)

  /** 2025-10-08T00:00:00.000Z, the preset target. */
  const DefaultTarget: int := 1759881600000

  /** The configuration the page starts from before anything is restored. */
  const Default: Config := Config(Some(DefaultTarget), "", "", "", "", "", "default")

  // ---------------------------------------------------------------------------
  // Background
  // ---------------------------------------------------------------------------

  /** The page background `applyBackground` chooses. */
  datatype Backdrop = Uploaded(dataUrl: string) | External(url: string) | Plain

  /** `applyBackground`: the uploaded image first, then the external URL, else none. */
  function BackgroundOf(c: Config): Backdrop {
    if c.bgDataUrl != "" then Uploaded(c.bgDataUrl)
    else if c.bgUrl != "" then External(c.bgUrl)
    else Plain
  }

  /** At most one of the two background sources is set. */
  predicate Exclusive(c: Config) {
    c.bgDataUrl == "" || c.bgUrl == ""
  }

  /** Only the two background fields differ between `c` and `r`. */
  predicate SameButBackground(c: Config, r: Config) {
    r.(bgDataUrl := c.bgDataUrl, bgUrl := c.bgUrl) == c
  }

  /**
   * An uploaded image has been read as `dataUrl`: it replaces the uploaded
   * source and clears the external one, so it is the background shown.
   */
  function WithUpload(c: Config, dataUrl: string): (r: Config)
    ensures SameButBackground(c, r)
    ensures r.bgDataUrl == dataUrl && r.bgUrl == "" && Exclusive(r)
    ensures BackgroundOf(r) == if dataUrl != "" then Uploaded(dataUrl) else Plain
  {
    c.(bgDataUrl := dataUrl, bgUrl := "")
  }

  /**
   * The background URL field now holds `value`: its trimmed text becomes the
   * external source, and a non-blank one clears the uploaded image. A blank
   * one keeps the uploaded image, which stays the background shown.
   */
  function WithBgUrlInput(c: Config, value: string): (r: Config)
    ensures SameButBackground(c, r)
    ensures r.bgUrl == Trim(value)
    ensures r.bgUrl != "" ==> r.bgDataUrl == "" && BackgroundOf(r) == External(r.bgUrl)
    ensures r.bgUrl == "" ==> r.bgDataUrl == c.bgDataUrl
    ensures r.bgUrl == "" ==> BackgroundOf(r) == if c.bgDataUrl != "" then Uploaded(c.bgDataUrl) else Plain
    ensures Exclusive(c) ==> Exclusive(r)
  {
    var url := Trim(value);
    if url != "" then c.(bgUrl := url, bgDataUrl := "") else c.(bgUrl := url)
  }

  // ---------------------------------------------------------------------------
  // The text form
  // ---------------------------------------------------------------------------

  /** What the input fields and the theme selector hold. */
  datatype Form = Form(eventName: string, partner: string, doneMessage: string, bgUrl: string, theme: string)

  /**
   * `setStateFromUI`: the four text fields are stored trimmed and the theme
   * as selected; the target and the uploaded image are kept, even when the
   * URL field is not blank.
   */
  function WithForm(c: Config, f: Form): (r: Config)
    ensures r.target == c.target && r.bgDataUrl == c.bgDataUrl && r.theme == f.theme
    ensures r.eventName == Trim(f.eventName) && r.partner == Trim(f.partner)
    ensures r.doneMessage == Trim(f.doneMessage) && r.bgUrl == Trim(f.bgUrl)
  {
    c.(eventName := Trim(f.eventName), partner := Trim(f.partner),
       doneMessage := Trim(f.doneMessage), bgUrl := Trim(f.bgUrl), theme := f.theme)
  }

  /**
   * `setUIFromState`: the form shows the stored fields, and the theme
   * selector shows "default" when no theme is stored.
   */
  function FormOf(c: Config): Form {
    Form(c.eventName, c.partner, c.doneMessage, c.bgUrl, if c.theme != "" then c.theme else "default")
  }

  /**
   * Storing a form, showing the result and storing what is shown changes
   * nothing more: stored texts are already trimmed.
   */
  lemma FormRoundTrip(c: Config, f: Form)
    requires f.theme != ""
    ensures var s := WithForm(c, f); WithForm(s, FormOf(s)) == s
  {
    TrimIdempotent(f.eventName);
    TrimIdempotent(f.partner);
    TrimIdempotent(f.doneMessage);
    TrimIdempotent(f.bgUrl);
  }

  // ---------------------------------------------------------------------------
  // Share link
  // ---------------------------------------------------------------------------

  /** The query parameters a share link may carry. */
  const ShareKeys: set<string> := {"t", "e", "p", "m", "bg", "theme"}

  /** The parameters with `k` set to `v`, when `v` is not empty. */
  function Put(q: map<string, string>, k: string, v: string): map<string, string> {
    if v != "" then q[k := v] else q
  }

  /** `Put` adds at most its own key and never an empty value. */
  lemma PutKeeps(q: map<string, string>, k: string, v: string)
    ensures Put(q, k, v).Keys <= q.Keys + {k}
    ensures NonEmptyValues(q) ==> NonEmptyValues(Put(q, k, v))
  {
  }

  /** No parameter has an empty value. */
  predicate NonEmptyValues(q: map<string, string>) {
    forall k :: k in q ==> q[k] != ""
  }

  /** The `t` parameter, present when the target is set. */
  function TargetParam(c: Config): map<string, string> {
    if c.target.Some? then map["t" := InstantText.Format(c.target.value)] else map[]
  }

  /**
   * The query string of a share link, as a map from parameter to value: one
   * parameter per non-empty field, never the uploaded image.
   */
  function ShareQuery(c: Config): map<string, string> {
    Put(Put(Put(Put(Put(TargetParam(c), "e", c.eventName), "p", c.partner), "m", c.doneMessage),
        "bg", c.bgUrl), "theme", c.theme)
  }

  /**
   * The share link carries only recognised parameters, none of them empty;
   * `t` is present exactly when a target is set and decodes back to it, and
   * every text field is present exactly when it is non-empty, verbatim.
   */
  lemma ShareQuerySpec(c: Config)
    ensures var q := ShareQuery(c);
      && q.Keys <= ShareKeys && NonEmptyValues(q)
      && ("t" in q <==> c.target.Some?)
      && ("t" in q ==> InstantText.Parse(q["t"]) == c.target)
      && ("e" in q <==> c.eventName != "") && ("e" in q ==> q["e"] == c.eventName)
      && ("p" in q <==> c.partner != "") && ("p" in q ==> q["p"] == c.partner)
      && ("m" in q <==> c.doneMessage != "") && ("m" in q ==> q["m"] == c.doneMessage)
      && ("bg" in q <==> c.bgUrl != "") && ("bg" in q ==> q["bg"] == c.bgUrl)
      && ("theme" in q <==> c.theme != "") && ("theme" in q ==> q["theme"] == c.theme)
  {
    var q0 := TargetParam(c);
    if c.target.Some? {
      InstantText.ParseFormat(c.target.value);
    }
    var q1 := Put(q0, "e", c.eventName);
    var q2 := Put(q1, "p", c.partner);
    var q3 := Put(q2, "m", c.doneMessage);
    var q4 := Put(q3, "bg", c.bgUrl);
    PutKeeps(q0, "e", c.eventName);
    PutKeeps(q1, "p", c.partner);
    PutKeeps(q2, "m", c.doneMessage);
    PutKeeps(q3, "bg", c.bgUrl);
    PutKeeps(q4, "theme", c.theme);
  }

  /** The instant a `t` parameter names, when it is present and parses. */
  function QueryTarget(q: map<string, string>): Option<int> {
    if "t" in q then InstantText.Parse(q["t"]) else None
  }

  /** The field under `k` after decoding: the parameter when present, else `v`. */
  function Get(q: map<string, string>, k: string, v: string): string {
    if k in q then q[k] else v
  }

  /**
   * `parseQuery`: every recognised parameter that is present overwrites its
   * field, a `t` that does not parse is ignored, and nothing else changes.
   */
  function ApplyQuery(c: Config, q: map<string, string>): Config {
    var t := QueryTarget(q);
    Config(if t.Some? then t else c.target,
           Get(q, "e", c.eventName), Get(q, "p", c.partner), Get(q, "m", c.doneMessage),
           c.bgDataUrl, Get(q, "bg", c.bgUrl), Get(q, "theme", c.theme))
  }

  /** Whether `parseQuery` took anything from the query, and so saves. */
  predicate QueryChanges(q: map<string, string>) {
    QueryTarget(q).Some? || "e" in q || "p" in q || "m" in q || "bg" in q || "theme" in q
  }

  /** Parameters `parseQuery` does not recognise make no difference. */
  lemma UnknownParametersIgnored(c: Config, q: map<string, string>)
    ensures ApplyQuery(c, q) == ApplyQuery(c, map k | k in q && k in ShareKeys :: q[k])
    ensures QueryChanges(q) <==> QueryChanges(map k | k in q && k in ShareKeys :: q[k])
  {
  }

  /** A query without recognised parameters changes nothing. */
  lemma NoChangeWithoutParameters(c: Config, q: map<string, string>)
    requires !QueryChanges(q)
    ensures ApplyQuery(c, q) == c
  {
  }

  /**
   * Round trip of a share link: decoding it onto any configuration `base`
   * restores every non-empty shared field of `c` (target, event, partner,
   * message, external background, theme), keeps `base`'s value of each field
   * `c` left empty, and never touches the uploaded image.
   */
  lemma ShareRoundTrip(base: Config, c: Config)
    ensures var r := ApplyQuery(base, ShareQuery(c));
      && r.target == (if c.target.Some? then c.target else base.target)
      && r.eventName == (if c.eventName != "" then c.eventName else base.eventName)
      && r.partner == (if c.partner != "" then c.partner else base.partner)
      && r.doneMessage == (if c.doneMessage != "" then c.doneMessage else base.doneMessage)
      && r.bgUrl == (if c.bgUrl != "" then c.bgUrl else base.bgUrl)
      && r.theme == (if c.theme != "" then c.theme else base.theme)
      && r.bgDataUrl == base.bgDataUrl
  {
    ShareQuerySpec(c);
  }

  /** A page that opens its own share link ends up where it was. */
  lemma OwnShareLinkIsNeutral(c: Config)
    ensures ApplyQuery(c, ShareQuery(c)) == c
  {
    ShareRoundTrip(c, c);
  }

  /**
   * Loading a share link is the only change a recipient sees: when every
   * field the sender left empty is empty at the recipient too, the decoded
   * configuration is the sender's, except for the recipient's uploaded image.
   */
  lemma ShareLinkReproduces(base: Config, c: Config)
    requires c.target.None? ==> base.target.None?
    requires c.eventName == "" ==> base.eventName == ""
    requires c.partner == "" ==> base.partner == ""
    requires c.doneMessage == "" ==> base.doneMessage == ""
    requires c.bgUrl == "" ==> base.bgUrl == ""
    requires c.theme == "" ==> base.theme == ""
    ensures ApplyQuery(base, ShareQuery(c)) == c.(bgDataUrl := base.bgDataUrl)
  {
    ShareRoundTrip(base, c);
  }

  /**
   * The two background sources are not exclusive in general: a link with a
   * `bg` parameter sets the external URL and keeps an uploaded image that
   * was restored before, which then hides it.
   */
  lemma QueryCanLeaveBothSources()
    ensures var c := Default.(bgDataUrl := "data:image/png;base64,AA==");
      var r := ApplyQuery(c, map["bg" := "https://example.org/a.jpg"]);
      Exclusive(c) && !Exclusive(r) && BackgroundOf(r) == Uploaded(c.bgDataUrl)
  {
  }
}
