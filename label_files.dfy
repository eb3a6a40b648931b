/**
 * What the two printing panels share: the tag-type text they put on a
 * label, and the label file they keep as a backup of a print.
 */
module LabelFiles {
  import opened Text
  import opened Labels
  import opened Detection
  import opened Coordinator

  /** A label file: its name in the export directory and its text. */
  datatype Backup = Backup(fileName: string, content: string)

  /** `tag_type.split("(")[0].strip()`: "Standard (Plastic)" prints as "Standard". */
  function TagTypeLabel(tagType: string): (t: string)
    ensures '(' !in t
  {
    var parts := Split(tagType, '(');
    SplitPartsFree(tagType, '(');
    var t := Strip(parts[0]);
    assert forall c :: c in t ==> c in parts[0];
    t
  }

  /** A type without a parenthesis and without surrounding white space is printed as it is. */
  lemma TagTypeLabelPlain(tagType: string)
    requires '(' !in tagType
    requires tagType != [] ==> !IsSpace(tagType[0]) && !IsSpace(tagType[|tagType| - 1])
    ensures TagTypeLabel(tagType) == tagType
  {
    SplitNoSeparator(tagType, '(');
    StripUnchanged(tagType);
  }

  /** The parenthesised note after a type is dropped: "Standard (Plastic)" prints as "Standard". */
  lemma TagTypeLabelDropsNote(kind: string, note: string)
    requires '(' !in kind
    requires kind != [] ==> !IsSpace(kind[0]) && !IsSpace(kind[|kind| - 1])
    ensures TagTypeLabel(kind + " (" + note) == kind
  {
    var head := kind + " ";
    assert kind + " (" + note == head + ['('] + note;
    SplitFirst(head, note, '(');
    if kind != [] {
      assert TrimStart(head) == head;
      assert head[..|head| - 1] == kind;
      assert TrimEnd(head) == TrimEnd(kind);
    } else {
      assert TrimStart(head) == TrimStart(head[1..]);
      assert head[1..] == "";
    }
  }

  /** The first piece of a split is everything before the first separator. */
  lemma {:induction false} SplitFirst(a: string, rest: string, sep: char)
    requires sep !in a
    ensures Split(a + [sep] + rest, sep)[0] == a
    decreases |a|
  {
    var s := a + [sep] + rest;
    if |a| > 0 {
      assert s[1..] == a[1..] + [sep] + rest;
      assert forall c :: c in a[1..] ==> c in a;
      SplitFirst(a[1..], rest, sep);
      assert s[0] == a[0] && a == [a[0]] + a[1..];
    } else {
      assert s[0] == sep;
    }
  }

  /** Splitting on a character the text does not hold gives the text back whole. */
  lemma {:induction false} SplitNoSeparator(s: string, sep: char)
    requires sep !in s
    ensures Split(s, sep) == [s]
    decreases |s|
  {
    if |s| > 0 {
      assert forall c :: c in s[1..] ==> c in s;
      SplitNoSeparator(s[1..], sep);
      assert s == [s[0]] + s[1..];
    }
  }

  /** The file extension for a language: "ipl" for "ipl", "zpl" for anything else. */
  function Extension(lang: string): (ext: string)
    ensures ext == IPL || ext == ZPL
    ensures ext == IPL <==> lang == IPL
  {
    if lang == IPL then IPL else ZPL
  }

  /** The backup of a label printed in `lang`: `<asset_id>.<ext>`, rendered in the dialect the extension names. */
  function BackupFor(lang: string, f: LabelFields, ts: string, qr: string): (b: Backup)
    ensures b.fileName == f.assetId + "." + Extension(lang)
    ensures b.content != [] && (b.content[0] == STX <==> lang == IPL)
  {
    var ext := Extension(lang);
    Backup(f.assetId + "." + ext, Render(ext, f, ts, qr))
  }

  /**
   * A backup made from the language a print actually used holds the label
   * that was sent, when it is rendered at the same clock reading.
   */
  lemma BackupMatchesSent(f: LabelFields, mode: string, host: string, port: int, printerName: string, language: string, w: World)
    ensures var r := PrintLabel(f, mode, host, port, printerName, language, w);
      r.sent.Some? ==> BackupFor(r.lang, f, w.ts, w.qr).content == r.sent.value
  {
    var r := PrintLabel(f, mode, host, port, printerName, language, w);
    if r.sent.Some? {
      assert Render(Extension(r.lang), f, w.ts, w.qr) == Render(r.lang, f, w.ts, w.qr);
    }
  }
}
