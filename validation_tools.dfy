/** `validate_pkg_format` of
    examples/external/external_python_project/externalpy_pkg/tools/validation_tools.py:
    which spelling of a package name the import system knows. The answers of
    `importlib.util.find_spec` are an input. */
module ValidationTools {
  import opened PyStrings

  /** What `find_spec(name)` does: returns a spec, returns None, or raises.
      It may raise for any name: ModuleNotFoundError for a dotted name whose
      parent is missing or is not a package, ValueError for a loaded module
      without a spec such as `__main__`, or whatever the parent's own import
      raises. */
  datatype Spec = Found | Missing | Raises

  /** The outcome of the call: a returned name, or the exception from
      `find_spec` passed on to the caller. */
  datatype Validated = Returned(name: string) | Raised

  /** `join(*dotted.split('.'))`: the dotted name as a relative path. */
  function JoinedName(dotted: string): string
  {
    PathJoinAll(Split(dotted, '.'))
  }

  /** The joined spelling when it is found, else the dotted one when that is
      found, else the empty name. */
  function ValidatePkgFormat(dotted: string, findSpec: string -> Spec): (r: Validated)
    ensures r.Returned? ==> r.name == JoinedName(dotted) || r.name == dotted || r.name == ""
    ensures findSpec(JoinedName(dotted)) == Found ==> r == Returned(JoinedName(dotted))
    ensures findSpec(JoinedName(dotted)) == Missing && findSpec(dotted) == Found ==> r == Returned(dotted)
    ensures findSpec(JoinedName(dotted)) == Missing && findSpec(dotted) == Missing ==> r == Returned("")
    ensures r == Raised <==> findSpec(JoinedName(dotted)) == Raises ||
                             (findSpec(JoinedName(dotted)) == Missing && findSpec(dotted) == Raises)
  {
    var joined := JoinedName(dotted);
    match findSpec(joined)
    case Found => Returned(joined)
    case Raises => Raised
    case Missing =>
      match findSpec(dotted)
      case Found => Returned(dotted)
      case Missing => Returned("")
      case Raises => Raised
  }

  /** The dotted spelling is returned only when the joined one was asked for
      first and not found. */
  lemma DottedOnlyAfterJoined(dotted: string, findSpec: string -> Spec)
    requires dotted != JoinedName(dotted)
    ensures ValidatePkgFormat(dotted, findSpec) == Returned(dotted) <==>
      findSpec(JoinedName(dotted)) == Missing && findSpec(dotted) == Found
  {
  }

  /** A name without a dot is its own joined spelling, so the result is the
      name itself or the empty name. */
  lemma PlainName(name: string, findSpec: string -> Spec)
    requires '.' !in name
    ensures JoinedName(name) == name
    ensures ValidatePkgFormat(name, findSpec).Returned? ==>
      ValidatePkgFormat(name, findSpec).name in {name, ""}
  {
    SplitNone(name, '.');
  }

  /** Joining parts that are non-empty and free of '/' puts one '/' between
      each two of them. */
  lemma {:induction false} PathJoinAllPlain(parts: seq<string>)
    requires |parts| >= 1
    requires forall i :: 0 <= i < |parts| ==> parts[i] != "" && '/' !in parts[i]
    ensures PathJoinAll(parts) == Join(parts, '/')
    ensures PathJoinAll(parts) != "" && PathJoinAll(parts)[|PathJoinAll(parts)| - 1] != '/'
  {
    if |parts| > 1 {
      var init := parts[..|parts| - 1];
      var last := parts[|parts| - 1];
      assert forall i :: 0 <= i < |init| ==> init[i] == parts[i];
      PathJoinAllPlain(init);
      JoinSnoc(init, last, '/');
      assert parts == init + [last];
      var a := PathJoinAll(init);
      assert !StartsWith(last, "/") by {
        assert last[0] in last;
      }
      assert PathJoinAll(parts) == a + "/" + last;
      assert last[|last| - 1] in last;
    }
  }

  /** For a name whose dotted parts are non-empty and hold no '/', the joined
      spelling is the name with each '.' turned into '/'. */
  lemma JoinedReplacesDots(dotted: string)
    requires '/' !in dotted
    requires forall i :: 0 <= i < |Split(dotted, '.')| ==> Split(dotted, '.')[i] != ""
    ensures JoinedName(dotted) == Join(Split(dotted, '.'), '/')
  {
    var parts := Split(dotted, '.');
    forall i | 0 <= i < |parts| ensures '/' !in parts[i] {
      SplitChars(dotted, '.', i);
    }
    PathJoinAllPlain(parts);
  }

  /** Every character of a field occurs in the split string. */
  lemma {:induction false} SplitChars(s: string, sep: char, i: nat)
    requires i < |Split(s, sep)|
    ensures forall c :: c in Split(s, sep)[i] ==> c in s
  {
    if s != [] {
      var rest := Split(s[1..], sep);
      if s[0] == sep {
        if i > 0 {
          SplitChars(s[1..], sep, i - 1);
        }
      } else if i == 0 {
        SplitChars(s[1..], sep, 0);
      } else {
        SplitChars(s[1..], sep, i);
      }
    }
  }
}
