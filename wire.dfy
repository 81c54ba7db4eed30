/** Wire-level values shared by both revisions of the client: the status
    snapshot, the raw status document, and the Python exceptions that the
    modelled code lets escape. */
module Wire {

  datatype Option<+T> = None | Some(value: T)

  /** An exception raised by the Python code and not caught there. */
  datatype PyError =
    | KeyError(key: string)
    | ValueError(message: string)
    | AttributeError(name: string)

  /** What a Python call does: it returns a value or it raises. */
  datatype Outcome<+T> = Ok(value: T) | Raised(error: PyError)

  /** A JSON value found in the status snapshot: the wire fields are numbers,
      the scrubbed password is a string. */
  datatype Value = Num(n: int) | Text(s: string)

  /** The status snapshot: short wire keys (`ps`, `wm`, `sp`, ...) to values. */
  type Status = map<string, Value>

  /** The wire keys whose values the devices read as numbers. */
  const NUMERIC_KEYS: set<string> := {"ps", "wm", "sp", "t", "ta", "tw", "fs", "fn", "fr", "nm"}

  /** The protocol's promise that every numeric wire key carries a number. */
  predicate WellFormed(st: Status)
  {
    forall k :: k in NUMERIC_KEYS && k in st ==> st[k].Num?
  }

  /** The number stored under `k`, or 0 when the key is absent (the
      `if k in self._status: ... else: return 0` pattern of every getter). */
  function NumOrZero(st: Status, k: string): (r: int)
    requires WellFormed(st) && k in NUMERIC_KEYS
    ensures k in st ==> st[k] == Num(r)
    ensures k !in st ==> r == 0
  {
    if k in st then st[k].n else 0
  }

  /** A successful write stores a number under a numeric key; the new
      snapshot is still well formed. */
  lemma PatchKeepsWellFormed(st: Status, k: string, v: int)
    requires WellFormed(st)
    ensures WellFormed(st[k := Num(v)])
  {
  }

  /** The raw status document returned by the `status` endpoint: every
      top-level key is optional. */
  datatype Document = Document(
    success: Option<bool>,
    result: Option<Status>,
    deviceType: Option<string>,
    uid: Option<string>,
    setup: Option<map<string, string>>,
    sw: Option<map<string, string>>,
    net: Option<map<string, string>>)

  /** The `{}` a device holds before its first `set_data`. */
  const EMPTY_DOCUMENT: Document := Document(None, None, None, None, None, None, None)

  predicate WellFormedDocument(doc: Document)
  {
    doc.result.Some? ==> WellFormed(doc.result.value)
  }

  /** Python truthiness of the document: a dict is true unless it is empty. */
  predicate Truthy(doc: Document)
  {
    doc != EMPTY_DOCUMENT
  }

  const OBFUSCATED: string := "__OBFUSCATED__"

  /** `RESULT` with its password replaced, as `set_data` does before storing it. */
  function Scrubbed(st: Status): (r: Status)
    ensures r.Keys == st.Keys + {"pwd"}
    ensures r["pwd"] == Text(OBFUSCATED)
    ensures forall k :: k in st && k != "pwd" ==> r[k] == st[k]
  {
    st["pwd" := Text(OBFUSCATED)]
  }

  /** Scrubbing touches only `pwd`, which no device reads as a number. */
  lemma ScrubbedKeepsWellFormed(st: Status)
    requires WellFormed(st)
    ensures WellFormed(Scrubbed(st))
  {
  }

  /** A document whose result section has been scrubbed. */
  function WithScrubbedResult(doc: Document): (r: Document)
    requires doc.result.Some?
    ensures r.result == Some(Scrubbed(doc.result.value))
    ensures r.(result := doc.result) == doc
  {
    doc.(result := Some(Scrubbed(doc.result.value)))
  }
}
