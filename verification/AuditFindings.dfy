/**
 From the audit report to findings: pick_advisory_id and iter_vulns of
 tools/check_pnpm_audit_exceptions.py, as functions.

 A JSON object is the list of its fields in order, with distinct keys; `str` is Python's
 str of any JSON value that is no string. Where the Python raises, the result is `None`.
 */
module AuditFindings {
  import opened Common
  import opened AuditVerdict

  datatype Json =
    | JNull
    | JBool(b: bool)
    | JNumber(digits: string, zero: bool)
    | JString(s: string)
    | JArray(items: seq<Json>)
    | JObject(fields: seq<(string, Json)>)

  /** dict.get. */
  function Get(fields: seq<(string, Json)>, key: string): Json {
    if fields == [] then JNull
    else if fields[0].0 == key then fields[0].1
    else Get(fields[1..], key)
  }

  predicate IsTrue(j: Json) {
    match j
    case JNull => false
    case JBool(b) => b
    case JNumber(_, zero) => !zero
    case JString(s) => s != ""
    case JArray(items) => items != []
    case JObject(fields) => fields != []
  }

  /** Python's `a or b`. */
  function Either(a: Json, b: Json): Json {
    if IsTrue(a) then a else b
  }

  function ToScalar(str: Json -> string, j: Json): Scalar {
    match j
    case JNull => Null
    case JString(s) => Text(s)
    case _ => Other(str(j), IsTrue(j))
  }

  // ---------- advisories ----------

  /** `(cves or [None])[0]`: an object or a number has no item 0. */
  function FirstCVE(cves: Json): Option<Json> {
    if !IsTrue(cves) then Some(JNull)
    else
      match cves
      case JArray(items) => Some(items[0])
      case JString(s) => Some(JString([s[0]]))
      case _ => None
  }

  function IDText(str: Json -> string, id: Json): Json {
    match id
    case JNull => JNull
    case JString(s) => JString(s)
    case _ => JString(str(id))
  }

  function PickAdvisoryID(str: Json -> string, a: seq<(string, Json)>): Option<Json> {
    var rest :=
      Either(IDText(str, Get(a, "id")), Either(Get(a, "title"), Either(Get(a, "advisory"), Get(a, "overview"))));
    if IsTrue(Get(a, "github_advisory_id")) then Some(Get(a, "github_advisory_id"))
    else if IsTrue(Get(a, "url")) then Some(Get(a, "url"))
    else
      match FirstCVE(Get(a, "cves"))
      case None => None
      case Some(cve) => Some(Either(cve, rest))
  }

  function AdvisoryFinding(str: Json -> string, advisory: Json): Option<Finding> {
    if !advisory.JObject? then None
    else
      var a := advisory.fields;
      match PickAdvisoryID(str, a)
      case None => None
      case Some(id) =>
        Some(Finding(ToScalar(str, Either(Get(a, "module_name"), Get(a, "name"))), ToScalar(str, Get(a, "severity")),
          ToScalar(str, id)))
  }

  function AdvisoryFindings(str: Json -> string, advisories: seq<(string, Json)>): Option<seq<Finding>> {
    if advisories == [] then Some([])
    else
      var n := |advisories| - 1;
      match AdvisoryFindings(str, advisories[..n])
      case None => None
      case Some(fs) =>
        match AdvisoryFinding(str, advisories[n].1)
        case None => None
        case Some(f) => Some(fs + [f])
  }

  // ---------- vulnerabilities ----------

  /** The id that one item of a `via` list offers: null when it offers none. */
  function ViaID(item: Json): Json {
    match item
    case JString(s) => item
    case JObject(f) =>
      Either(Get(f, "github_advisory_id"),
        Either(Get(f, "url"), Either(Get(f, "source"), Either(Get(f, "title"), Get(f, "name")))))
    case _ => JNull
  }

  function ViaTitle(item: Json): Json {
    match item
    case JString(s) => item
    case JObject(f) => Either(Get(f, "title"), Either(Get(f, "url"), Either(Get(f, "advisory"), Get(f, "source"))))
    case _ => JNull
  }

  /** The items that `via` stands for; anything but a list or a string stands for none. */
  function ViaItems(via: Json): seq<Json> {
    match via
    case JArray(items) => items
    case JString(_) => [via]
    case _ => []
  }

  /** `via` of a vulnerability: the empty list when it has none. */
  function ViaOf(vuln: seq<(string, Json)>): seq<Json> {
    ViaItems(Get(vuln, "via"))
  }

  /** str.join raises on a true title that is no string. */
  predicate Joinable(items: seq<Json>) {
    forall i :: 0 <= i < |items| ==> IsTrue(ViaTitle(items[i])) ==> ViaTitle(items[i]).JString?
  }

  /** One finding for each item that offers an id, in order. */
  function ViaFindings(str: Json -> string, name: string, severity: Scalar, items: seq<Json>): seq<Finding> {
    if items == [] then []
    else
      var n := |items| - 1;
      var id := ViaID(items[n]);
      ViaFindings(str, name, severity, items[..n]) +
      if IsTrue(id) then [Finding(Text(name), severity, ToScalar(str, id))] else []
  }

  function VulnFindings(str: Json -> string, name: string, vuln: Json): Option<seq<Finding>> {
    if !vuln.JObject? || !Joinable(ViaOf(vuln.fields)) then None
    else Some(ViaFindings(str, name, ToScalar(str, Get(vuln.fields, "severity")), ViaOf(vuln.fields)))
  }

  function AllVulnFindings(str: Json -> string, vulns: seq<(string, Json)>): Option<seq<Finding>> {
    if vulns == [] then Some([])
    else
      var n := |vulns| - 1;
      match AllVulnFindings(str, vulns[..n])
      case None => None
      case Some(fs) =>
        match VulnFindings(str, vulns[n].0, vulns[n].1)
        case None => None
        case Some(more) => Some(fs + more)
  }

  /** The fields of an object; nothing is read of any other value. */
  function FieldsOf(j: Json): seq<(string, Json)> {
    if j.JObject? then j.fields else []
  }

  /** Everything iter_vulns yields: the advisories' findings, then the vulnerabilities'. */
  function Findings(str: Json -> string, data: Json): Option<seq<Finding>> {
    if !data.JObject? then None
    else
      match AdvisoryFindings(str, FieldsOf(Get(data.fields, "advisories")))
      case None => None
      case Some(fs) =>
        match AllVulnFindings(str, FieldsOf(Get(data.fields, "vulnerabilities")))
        case None => None
        case Some(more) => Some(fs + more)
  }

  // ---------- which vulnerabilities are seen ----------

  /** Some item of `via` offers an id. */
  ghost predicate HasID(items: seq<Json>) {
    exists i :: 0 <= i < |items| && IsTrue(ViaID(items[i]))
  }

  /** The findings of a vulnerability are exactly the ids its items offer; each has an advisory. */
  lemma {:induction false} ViaFindingsContents(
    str: Json -> string, name: string, severity: Scalar, items: seq<Json>, fs: seq<Finding>)
    requires fs == ViaFindings(str, name, severity, items)
    ensures forall f :: f in fs <==>
      exists i :: 0 <= i < |items| && IsTrue(ViaID(items[i]))
                  && f == Finding(Text(name), severity, ToScalar(str, ViaID(items[i])))
    ensures fs == [] <==> !HasID(items)
  {
    hide ViaID, IsTrue, ToScalar;
    if items == [] {
    } else {
      var n := |items| - 1;
      var init := items[..n];
      var before := ViaFindings(str, name, severity, init);
      ViaFindingsContents(str, name, severity, init, before);
      assert forall i :: 0 <= i < n ==> init[i] == items[i];
      assert HasID(init) ==> HasID(items);
      assert IsTrue(ViaID(items[n])) ==> HasID(items);
    }
  }
}
