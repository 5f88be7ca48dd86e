/**
 * What the dashboard's forms share: the validation issues a zod schema reports,
 * and the file picker's change handler.
 */
module Forms {
  import opened Wrappers

  /**
   * One failed rule of a schema: the field (one of the schema's keys, `F`) and
   * the message shown under it.
   */
  datatype Issue<F> = Issue(field: F, message: string)

  /** The fields an issue list is about: those that show a message under them. */
  function Fields<F>(issues: seq<Issue<F>>): set<F> {
    set i | 0 <= i < |issues| :: issues[i].field
  }

  predicate Flagged<F(==)>(issues: seq<Issue<F>>, field: F) {
    field in Fields(issues)
  }

  /** The issues of two concatenated lists are about the fields of either. */
  lemma FieldsAppend<F>(a: seq<Issue<F>>, b: seq<Issue<F>>)
    ensures Fields(a + b) == Fields(a) + Fields(b)
  {
    forall x | x in Fields(a + b) ensures x in Fields(a) + Fields(b) {
      var i :| 0 <= i < |a + b| && (a + b)[i].field == x;
      if i >= |a| {
        assert b[i - |a|].field == x;
      }
    }
    forall x | x in Fields(a) + Fields(b) ensures x in Fields(a + b) {
      if x in Fields(a) {
        var i :| 0 <= i < |a| && a[i].field == x;
        assert (a + b)[i].field == x;
      } else {
        var i :| 0 <= i < |b| && b[i].field == x;
        assert (a + b)[|a| + i].field == x;
      }
    }
  }

  /** A field is flagged in two concatenated lists when it is flagged in either. */
  lemma FlaggedAppend<F(!new)>(a: seq<Issue<F>>, b: seq<Issue<F>>)
    ensures forall g :: Flagged(a + b, g) <==> Flagged(a, g) || Flagged(b, g)
  {
    FieldsAppend(a, b);
  }

  /** `FlaggedAppend` for a schema of four rules. */
  lemma FlaggedAppend4<F(!new)>(s1: seq<Issue<F>>, s2: seq<Issue<F>>, s3: seq<Issue<F>>, s4: seq<Issue<F>>)
    ensures forall g :: Flagged(s1 + s2 + s3 + s4, g) <==>
      Flagged(s1, g) || Flagged(s2, g) || Flagged(s3, g) || Flagged(s4, g)
  {
    FlaggedAppend(s1, s2);
    FlaggedAppend(s1 + s2, s3);
    FlaggedAppend(s1 + s2 + s3, s4);
  }

  /** `FlaggedAppend` for a schema of six rules. */
  lemma FlaggedAppend6<F(!new)>(s1: seq<Issue<F>>, s2: seq<Issue<F>>, s3: seq<Issue<F>>,
                                s4: seq<Issue<F>>, s5: seq<Issue<F>>, s6: seq<Issue<F>>)
    ensures forall g :: Flagged(s1 + s2 + s3 + s4 + s5 + s6, g) <==>
      Flagged(s1, g) || Flagged(s2, g) || Flagged(s3, g) || Flagged(s4, g) || Flagged(s5, g) || Flagged(s6, g)
  {
    FlaggedAppend4(s1, s2, s3, s4);
    FlaggedAppend(s1 + s2 + s3 + s4, s5);
    FlaggedAppend(s1 + s2 + s3 + s4 + s5, s6);
  }

  /** `FlaggedAppend` for a schema of seven rules. */
  lemma FlaggedAppend7<F(!new)>(s1: seq<Issue<F>>, s2: seq<Issue<F>>, s3: seq<Issue<F>>, s4: seq<Issue<F>>,
                                s5: seq<Issue<F>>, s6: seq<Issue<F>>, s7: seq<Issue<F>>)
    ensures forall g :: Flagged(s1 + s2 + s3 + s4 + s5 + s6 + s7, g) <==>
      Flagged(s1, g) || Flagged(s2, g) || Flagged(s3, g) || Flagged(s4, g) || Flagged(s5, g) || Flagged(s6, g) || Flagged(s7, g)
  {
    FlaggedAppend6(s1, s2, s3, s4, s5, s6);
    FlaggedAppend(s1 + s2 + s3 + s4 + s5 + s6, s7);
  }

  /** The issue list of one rule: empty when the rule holds. */
  function Check<F(==,!new)>(ok: bool, field: F, message: string): (r: seq<Issue<F>>)
    ensures forall g :: Flagged(r, g) <==> !ok && g == field
  {
    if ok then [] else
      var r := [Issue(field, message)];
      assert r[0].field == field;
      r
  }

  /** A file chosen in the browser's file picker, known by its name. */
  datatype FileRef = FileRef(name: string)

  /**
   * `handleFileChange`: `if (e.target.files && e.target.files[0]) setSelectedFile(e.target.files[0])`.
   * `files` is the input's file list, absent when the browser gives none.
   */
  function SelectFile(current: Option<FileRef>, files: Option<seq<FileRef>>): (r: Option<FileRef>)
    ensures files.Some? && files.value != [] ==> r == Some(files.value[0])
    ensures files.None? || files.value == [] ==> r == current
  {
    if files.Some? && files.value != [] then Some(files.value[0]) else current
  }

  /** Once a file has been chosen, no later change event clears the selection. */
  lemma SelectionNeverCleared(current: Option<FileRef>, files: Option<seq<FileRef>>)
    requires current.Some?
    ensures SelectFile(current, files).Some?
  {
  }
}
