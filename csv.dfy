// The CSV dump record of a task: seven text fields, with line breaks in the title and content
// written as the two characters '\' 'n' (csv/csv.go).
module Csv {
  import opened Wrappers
  import opened Strconv
  import opened Clock
  import opened Tasks
  import Strs

  const FieldId: nat := 0
  const FieldTitle: nat := 1
  const FieldContent: nat := 2
  const FieldCreated: nat := 3
  const FieldUpdated: nat := 4
  const FieldCompleted: nat := 5
  const FieldPriority: nat := 6
  const FieldCount: nat := 7

  const Newline: string := "\n"
  /** A backslash followed by the letter n. */
  const EscapedNewline: string := ['\\', 'n']

  /** Why recToTask returns an error: a time or priority field that does not parse. */
  datatype CsvError = BadTime(field: nat) | BadPriority

  /**
   * What recToTask does with a record: it returns a task or an error, or it panics with an index
   * out of range on the first field it reads past the end of a short record.
   */
  datatype RecRead = Returned(result: Result<Task, CsvError>) | IndexPanic(index: nat)

  /** The Go zero Task: what recToTask starts from before filling the seven fields. */
  const ZeroTask: Task := Task("", "", "", NotCompleted, NotCompleted, NotCompleted, 0, false, false, 0, 0, 0, 0.0, [])

  /** `s` holds no backslash directly followed by 'n'. */
  predicate NoLiteralEscape(s: string) {
    forall i | 0 <= i < |s| - 1 :: !(s[i] == '\\' && s[i + 1] == 'n')
  }

  /** The predicate is strings.Contains(s, `\n`) being false. */
  lemma NoLiteralEscapeIsAbsence(s: string)
    ensures NoLiteralEscape(s) <==> Strs.Index(s, EscapedNewline) == -1
  {
    if !NoLiteralEscape(s) {
      var i :| 0 <= i < |s| - 1 && s[i] == '\\' && s[i + 1] == 'n';
      EscapeOccurs(s, i);
    }
    if Strs.Index(s, EscapedNewline) != -1 {
      EscapeAt(s, Strs.Index(s, EscapedNewline));
    }
  }

  /** A backslash followed by 'n' is an occurrence of the escape. */
  lemma EscapeOccurs(s: string, i: int)
    requires 0 <= i < |s| - 1 && s[i] == '\\' && s[i + 1] == 'n'
    ensures Strs.OccursAt(s, EscapedNewline, i)
  {
    assert s[i..i + 2] == EscapedNewline;
  }

  /** An occurrence of the escape is a backslash followed by 'n'. */
  lemma EscapeAt(s: string, i: int)
    requires Strs.OccursAt(s, EscapedNewline, i)
    ensures !NoLiteralEscape(s)
  {
    assert s[i..i + 2][0] == s[i] && s[i..i + 2][1] == s[i + 1];
  }

  function Wrap(s: string): string { Strs.ReplaceAll(s, Newline, EscapedNewline) }

  function Unwrap(s: string): string { Strs.ReplaceAll(s, EscapedNewline, Newline) }

  /** Wrapped text is a single line. */
  lemma WrapHasNoNewline(s: string)
    ensures '\n' !in Wrap(s)
  {
    Strs.ReplaceAllRemovesChar(s, '\n', EscapedNewline);
  }

  /** Wrapping starts with 'n' exactly when the text does: a wrapped line break starts with '\'. */
  lemma WrapHead(s: string)
    requires |s| > 0
    ensures |Wrap(s)| > 0 && (Wrap(s)[0] == 'n' <==> s[0] == 'n')
    ensures s[0] == '\n' ==> Wrap(s) == EscapedNewline + Wrap(s[1..])
    ensures s[0] != '\n' ==> Wrap(s) == [s[0]] + Wrap(s[1..])
  {
    assert s[..1] == [s[0]];
  }

  /** One step of unwrapping: a leading literal `\n` becomes a line break, any other first character stays. */
  lemma UnwrapStep(s: string)
    requires s != []
    ensures |s| >= 2 && s[0] == '\\' && s[1] == 'n' ==> Unwrap(s) == Newline + Unwrap(s[2..])
    ensures !(|s| >= 2 && s[0] == '\\' && s[1] == 'n') ==> Unwrap(s) == [s[0]] + Unwrap(s[1..])
  {
    if |s| >= 2 {
      assert s[..2] == EscapedNewline <==> s[0] == '\\' && s[1] == 'n' by {
        assert s[..2][0] == s[0] && s[..2][1] == s[1];
      }
    }
  }

  /** Unwrapping after wrapping is plain unwrapping: a literal `\n` comes back as a line break, like a wrapped one. */
  lemma {:induction false} UnwrapAfterWrap(s: string)
    ensures Unwrap(Wrap(s)) == Unwrap(s)
    decreases |s|
  {
    if s != [] {
      WrapHead(s);
      UnwrapStep(s);
      var w := Wrap(s[1..]);
      if s[0] == '\n' {
        UnwrapAfterWrap(s[1..]);
        UnwrapStep(EscapedNewline + w);
        assert (EscapedNewline + w)[2..] == w;
      } else if |s| >= 2 && s[0] == '\\' && s[1] == 'n' {
        WrapHead(s[1..]);
        assert s[1..][1..] == s[2..];
        UnwrapAfterWrap(s[2..]);
        var v := [s[0]] + (['n'] + Wrap(s[2..]));
        UnwrapStep(v);
        assert v[2..] == Wrap(s[2..]);
      } else {
        UnwrapAfterWrap(s[1..]);
        var v := [s[0]] + w;
        if |s| >= 2 {
          WrapHead(s[1..]);
        }
        UnwrapStep(v);
        assert v[1..] == w;
      }
    }
  }

  /** Unwrapping never lengthens text, and it shortens any text holding a literal `\n`. */
  lemma {:induction false} UnwrapShrinks(s: string)
    ensures |Unwrap(s)| <= |s|
    ensures !NoLiteralEscape(s) ==> |Unwrap(s)| < |s|
    decreases |s|
  {
    if s != [] {
      UnwrapStep(s);
      if |s| >= 2 && s[0] == '\\' && s[1] == 'n' {
        UnwrapShrinks(s[2..]);
      } else {
        UnwrapShrinks(s[1..]);
        if !NoLiteralEscape(s) {
          var i :| 0 <= i < |s| - 1 && s[i] == '\\' && s[i + 1] == 'n';
          assert s[1..][i - 1] == s[i] && s[1..][i] == s[i + 1];
        }
      }
    }
  }

  /** Text comes back from wrapping and unwrapping exactly when it holds no literal `\n`. */
  lemma ContentRoundTrip(s: string)
    ensures Unwrap(Wrap(s)) == s <==> NoLiteralEscape(s)
  {
    UnwrapAfterWrap(s);
    UnwrapShrinks(s);
    if NoLiteralEscape(s) {
      UnwrapLeavesPlainText(s);
    }
  }

  /** Wrapping leaves text alone exactly when it is a single line. */
  lemma WrapKeepsSingleLine(s: string)
    ensures Wrap(s) == s <==> '\n' !in s
  {
    WrapHasNoNewline(s);
    if '\n' !in s {
      Strs.IndexOfChar(s, '\n');
      Strs.ReplaceAllAbsent(s, Newline, EscapedNewline);
    }
  }

  /** wrapSpecialSymbols: line breaks in the content and the title escaped, nothing else touched. */
  function WrapSpecialSymbols(t: Task): (r: Task)
    ensures '\n' !in r.content && '\n' !in r.title
    ensures r.content == Wrap(t.content) && r.title == Wrap(t.title)
    ensures r.(content := t.content, title := t.title) == t
    ensures r == t <==> '\n' !in t.content && '\n' !in t.title
  {
    WrapHasNoNewline(t.content);
    WrapHasNoNewline(t.title);
    WrapKeepsSingleLine(t.content);
    WrapKeepsSingleLine(t.title);
    t.(content := Wrap(t.content), title := Wrap(t.title))
  }

  /** unwrapSpecialSymbols: only the content is unescaped, and the task changes exactly when its content holds a literal `\n`. */
  function UnwrapSpecialSymbols(t: Task): (r: Task)
    ensures r.content == Unwrap(t.content)
    ensures r.(content := t.content) == t
    ensures r == t <==> NoLiteralEscape(t.content)
  {
    UnwrapShrinks(t.content);
    if NoLiteralEscape(t.content) then
      UnwrapLeavesPlainText(t.content);
      t.(content := Unwrap(t.content))
    else t.(content := Unwrap(t.content))
  }

  /** Text without a literal escape is left alone by unwrapping. */
  lemma UnwrapLeavesPlainText(s: string)
    requires NoLiteralEscape(s)
    ensures Unwrap(s) == s
  {
    NoLiteralEscapeIsAbsence(s);
    Strs.ReplaceAllAbsent(s, EscapedNewline, Newline);
  }

  /** Decimal text never holds a line break. */
  lemma ItoaSingleLine(n: int)
    ensures '\n' !in Itoa(n)
  {
    var digits := NatDigits(if n < 0 then -n else n);
    assert forall i | 0 <= i < |digits| :: IsDigit(digits[i]);
    if n < 0 {
      assert Itoa(n) == "-" + digits;
    }
  }

  /** taskToRec: id, escaped title, escaped content, the three times and the priority; every field is a single line but the id. */
  function TaskToRec(c: Task): (r: seq<string>)
    ensures |r| == FieldCount
    ensures r[FieldId] == c.id && r[FieldTitle] == Wrap(c.title) && r[FieldContent] == Wrap(c.content)
    ensures r[FieldCreated] == FormatTime(c.created) && r[FieldUpdated] == FormatTime(c.updated)
    ensures r[FieldCompleted] == FormatTime(c.completed) && r[FieldPriority] == Itoa(c.priority)
    ensures forall f | FieldTitle <= f < FieldCount :: '\n' !in r[f]
  {
    var w := WrapSpecialSymbols(c);
    var title, content := w.title, w.content;
    assert title == Wrap(c.title) && content == Wrap(c.content) && '\n' !in title && '\n' !in content;
    ItoaSingleLine(c.created);
    ItoaSingleLine(c.updated);
    ItoaSingleLine(c.completed);
    ItoaSingleLine(c.priority);
    SingleLineFields(c.id, title, content, FormatTime(c.created), FormatTime(c.updated), FormatTime(c.completed), Itoa(c.priority));
    [c.id, title, content, FormatTime(c.created), FormatTime(c.updated), FormatTime(c.completed), Itoa(c.priority)]
  }

  /** Seven fields of which all but the first are single lines make a record of single-line fields after the id. */
  lemma SingleLineFields(f0: string, f1: string, f2: string, f3: string, f4: string, f5: string, f6: string)
    requires '\n' !in f1 && '\n' !in f2 && '\n' !in f3 && '\n' !in f4 && '\n' !in f5 && '\n' !in f6
    ensures var r := [f0, f1, f2, f3, f4, f5, f6]; forall f | FieldTitle <= f < FieldCount :: '\n' !in r[f]
  {
  }

  /** Field `f` of the record, one of the three times or the priority, parses. */
  predicate FieldParses(record: seq<string>, f: nat)
    requires FieldCreated <= f < |record|
  {
    if f == FieldPriority then Atoi(record[f]).Some? else ParseTime(record[f]).Some?
  }

  /**
   * recToTask: the three times and the priority are read and parsed in field order, the first
   * failure ending the read; reading past the end of a short record panics. The other task fields
   * keep their zero values and the content is unescaped.
   */
  function RecToTask(record: seq<string>): (r: RecRead)
    ensures r.IndexPanic? <==> |record| < FieldCount && forall f: nat | FieldCreated <= f < |record| :: FieldParses(record, f)
    ensures r.IndexPanic? ==> r.index == if |record| <= FieldCreated then FieldCreated else |record|
    ensures r.Returned? && r.result.Ok? <==> (|record| >= FieldCount && ParseTime(record[FieldCreated]).Some? &&
                                              ParseTime(record[FieldUpdated]).Some? && ParseTime(record[FieldCompleted]).Some? &&
                                              Atoi(record[FieldPriority]).Some?)
    ensures r.Returned? && r.result.Ok? ==> var t := r.result.value;
      t.id == record[FieldId] && t.title == record[FieldTitle] && t.content == Unwrap(record[FieldContent])
      && Some(t.created) == ParseTime(record[FieldCreated]) && Some(t.updated) == ParseTime(record[FieldUpdated])
      && Some(t.completed) == ParseTime(record[FieldCompleted]) && Some(t.priority) == Atoi(record[FieldPriority])
      && t.(id := "", title := "", content := "", created := 0, updated := 0, completed := 0, priority := 0) == ZeroTask
  {
    if |record| <= FieldCreated then IndexPanic(FieldCreated)
    else match ParseTime(record[FieldCreated])
    case None => assert !FieldParses(record, FieldCreated); Returned(Err(BadTime(FieldCreated)))
    case Some(created) =>
      if |record| <= FieldUpdated then IndexPanic(FieldUpdated)
      else match ParseTime(record[FieldUpdated])
      case None => assert !FieldParses(record, FieldUpdated); Returned(Err(BadTime(FieldUpdated)))
      case Some(updated) =>
        if |record| <= FieldCompleted then IndexPanic(FieldCompleted)
        else match ParseTime(record[FieldCompleted])
        case None => assert !FieldParses(record, FieldCompleted); Returned(Err(BadTime(FieldCompleted)))
        case Some(completed) =>
          if |record| <= FieldPriority then IndexPanic(FieldPriority)
          else match Atoi(record[FieldPriority])
          case None => assert !FieldParses(record, FieldPriority); Returned(Err(BadPriority))
          case Some(priority) =>
            var result := ZeroTask.(id := record[FieldId], title := record[FieldTitle], content := record[FieldContent],
                                    created := created, updated := updated, completed := completed, priority := priority);
            Returned(Ok(UnwrapSpecialSymbols(result)))
  }

  /** The fields a dump keeps: all but the flags, the estimates, the value and the tags. */
  function Dumped(t: Task): Task {
    ZeroTask.(id := t.id, title := t.title, content := t.content, created := t.created, updated := t.updated,
              completed := t.completed, priority := t.priority)
  }

  /** Every dumped task reads back as its dumped fields, with the title still escaped and the content unescaped. */
  lemma RecordReadsBack(t: Task)
    ensures RecToTask(TaskToRec(t)) == Returned(Ok(Dumped(t).(title := Wrap(t.title), content := Unwrap(t.content))))
  {
    ParseFormatTime(t.created);
    ParseFormatTime(t.updated);
    ParseFormatTime(t.completed);
    AtoiItoa(t.priority);
    UnwrapAfterWrap(t.content);
  }

  /** A dumped task reads back as its dumped fields exactly when its title is one line and its content has no literal `\n`. */
  lemma RecordRoundTrip(t: Task)
    ensures RecToTask(TaskToRec(t)) == Returned(Ok(Dumped(t))) <==> '\n' !in t.title && NoLiteralEscape(t.content)
  {
    RecordReadsBack(t);
    WrapKeepsSingleLine(t.title);
    ContentRoundTrip(t.content);
    UnwrapAfterWrap(t.content);
    var back := Dumped(t).(title := Wrap(t.title), content := Unwrap(t.content));
    assert back == Dumped(t) <==> back.title == t.title && back.content == t.content;
  }
}
