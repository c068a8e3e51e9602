/** `PdyParser` of pyqtdeploy_app/utils/pdy_parser.py: getters over the
    element tree of a `.pdy` project file. Parsing the XML is left to the
    caller; the tree is given. A missing element or attribute ends the
    process with exit code 1. */
module PdyParser {
  import opened Wrappers
  import opened PyStrings
  import opened EntryPoints

  /** An XML element: its tag, its attributes and its child elements in
      document order. */
  datatype Element = Element(tag: string, attrib: map<string, string>, children: seq<Element>)

  const ExitFailure: int := 1

  /** The position of the first child with the tag. */
  function FirstTagged(children: seq<Element>, tag: string): (r: Option<nat>)
    ensures r.Some? ==> r.value < |children| && children[r.value].tag == tag
    ensures r.Some? ==> forall j :: 0 <= j < r.value ==> children[j].tag != tag
    ensures r.None? ==> forall j :: 0 <= j < |children| ==> children[j].tag != tag
  {
    if children == [] then None
    else if children[0].tag == tag then Some(0)
    else match FirstTagged(children[1..], tag)
      case None => None
      case Some(i) => Some(i + 1)
  }

  /** `e.find(tag)`: the first child element with the tag, None if none. */
  function Find(e: Element, tag: string): (r: Option<Element>)
    ensures r.Some? ==> r.value in e.children && r.value.tag == tag
    ensures r.None? <==> forall c :: c in e.children ==> c.tag != tag
  {
    match FirstTagged(e.children, tag)
    case None => None
    case Some(i) => Some(e.children[i])
  }

  /** `find(tag).attrib[key]`; a missing element raises AttributeError and a
      missing attribute KeyError, both ending in exit 1. */
  function Attribute(e: Option<Element>, key: string): (r: Result<string>)
    ensures r.Exit? ==> r.code == ExitFailure
    ensures r.Ok? <==> e.Some? && key in e.value.attrib
    ensures r.Ok? ==> r.value == e.value.attrib[key]
  {
    if e.Some? && key in e.value.attrib then Ok(e.value.attrib[key]) else Exit(ExitFailure)
  }

  /** `get_app_name`: the `name` of the first `Application` element. */
  function GetAppName(root: Element): (r: Result<string>)
    ensures r.Exit? ==> r.code == ExitFailure
    ensures var i := FirstTagged(root.children, "Application");
      && (r.Ok? <==> i.Some? && "name" in root.children[i.value].attrib)
      && (r.Ok? ==> r.value == root.children[i.value].attrib["name"])
  {
    Attribute(Find(root, "Application"), "name")
  }

  /** `get_app_entrypoint_script_name`: the script name of the application's
      `entrypoint`, with `.py` added. */
  function GetAppEntrypointScriptName(root: Element): (r: Result<string>)
    ensures r.Exit? ==> r.code == ExitFailure
    ensures var app := Find(root, "Application");
      && (r.Ok? <==> app.Some? && "entrypoint" in app.value.attrib)
      && (r.Ok? ==> r.value == ScriptName(app.value.attrib["entrypoint"]) + ".py")
    ensures r.Ok? ==> EndsWith(r.value, ".py")
    ensures r.Ok? ==> '.' !in r.value[..|r.value| - 3] && ':' !in r.value[..|r.value| - 3]
  {
    match Attribute(Find(root, "Application"), "entrypoint")
    case Exit(code) => Exit(code)
    case Ok(entry) =>
      var stem := ScriptName(entry);
      assert (stem + ".py")[..|stem|] == stem;
      Ok(stem + ".py")
  }

  /** `get_app_package_path`: the `name` of the `Package` element inside the
      application. */
  function GetAppPackagePath(root: Element): (r: Result<string>)
    ensures r.Exit? ==> r.code == ExitFailure
    ensures var app := Find(root, "Application");
      var package := if app.Some? then Find(app.value, "Package") else None;
      && (r.Ok? <==> package.Some? && "name" in package.value.attrib)
      && (r.Ok? ==> r.value == package.value.attrib["name"] && package.value in app.value.children)
  {
    var app := Find(root, "Application");
    if app.None? then Exit(ExitFailure)
    else Attribute(Find(app.value, "Package"), "name")
  }

  /** An entry point `p.m:f` of the application gives the script `m.py`, and
      one without a separator gives itself with `.py` added. */
  lemma EntrypointScript(root: Element, p: string, m: string, f: string)
    requires Find(root, "Application").Some? && "entrypoint" in Find(root, "Application").value.attrib
    requires '.' !in m && ':' !in m && '.' !in f
    ensures Find(root, "Application").value.attrib["entrypoint"] == p + "." + m + ":" + f ==>
      GetAppEntrypointScriptName(root) == Ok(m + ".py")
    ensures Find(root, "Application").value.attrib["entrypoint"] == m ==>
      GetAppEntrypointScriptName(root) == Ok(m + ".py")
  {
    ScriptNameOfEntry(p, m, f);
    ScriptNameOfPlain(m);
  }
}
