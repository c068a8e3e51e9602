/** The script name of a Python entry point `pkg.module:callable`, which both
    project-file parsers derive the same way. */
module EntryPoints {
  import opened PyStrings

  /** `entry.split(".")[-1].split(":")[0]`: the last dotted part, cut before
      the first ':'. It holds neither separator. */
  function ScriptName(entry: string): (r: string)
    ensures '.' !in r && ':' !in r
  {
    var endPart := LastField(entry, '.');
    SplitFields(entry, '.');
    SplitHead(endPart, ':');
    Split(endPart, ':')[0]
  }

  /** For `p.m:f` with a plain module name `m` and a callable `f` without a
      dot, the script name is `m`, whatever the package path `p` is. */
  lemma ScriptNameOfEntry(p: string, m: string, f: string)
    requires '.' !in m && ':' !in m && '.' !in f
    ensures ScriptName(p + "." + m + ":" + f) == m
  {
    var tail := m + ":" + f;
    assert p + "." + m + ":" + f == p + ['.'] + tail;
    LastFieldAfter(p, tail, '.');
    assert tail == m + [':'] + f;
    SplitFirst(m, f, ':');
  }

  /** An entry point without a package part names its module directly. */
  lemma ScriptNameOfModule(m: string, f: string)
    requires '.' !in m && ':' !in m && '.' !in f
    ensures ScriptName(m + ":" + f) == m
  {
    var tail := m + ":" + f;
    SplitNone(tail, '.');
    assert tail == m + [':'] + f;
    SplitFirst(m, f, ':');
  }

  /** An entry point with neither separator is its own script name. */
  lemma ScriptNameOfPlain(e: string)
    requires '.' !in e && ':' !in e
    ensures ScriptName(e) == e
  {
    SplitNone(e, '.');
    SplitNone(e, ':');
  }
}
