/**
 * The CSV template the upload page offers for download (`generateCSVTemplate`): two comment
 * lines, seven metadata lines, a blank line, a comment, the header and three sample rows,
 * joined by newlines and ending with one.
 */
module CsvTemplate {
  import opened Wrappers
  import opened Seqs
  import opened Text
  import opened CsvParser

  const Title := "# 政治資金収支報告書" + "CSVテンプレート v1.0"
  const MetaNote := "# メタデータ" + "（オプション）- " + "以下の行は # " + "で始めてください"
  const DataNote := "# データ行（必須）"
  const HeaderFields := ["日付", "カテゴリー", "項目", "金額", "タイプ", "支出先/寄附者", "住所", "備考"]
  const Sample1 := ["2023/04/01", "個人からの寄附", "桐ヶ谷正裕", "100000", "収入", "", "", "会社役員"]
  const Sample2 := ["2023/05/27", "事務所費", "事務所賃料", "891010", "支出", "宇野卓哉", "神奈川県横浜市", ""]
  const Sample3 := ["2023/06/15", "備品・消耗品費", "ガソリン代", "68395", "支出", "豊島興油株式会社", "東京都千代田区", ""]

  const TemplateHead: seq<string> := [Title, MetaNote]

  /** The seven `#KEY=VALUE` assignments of the template, in order. */
  const TemplateEntries: seq<(string, string)> := [
    ("POLITICIAN", "政治家名"),
    ("ORGANIZATION", "政治団体名"),
    ("FISCAL_YEAR", "2023"),
    ("INCOME_TOTAL", "10000000"),
    ("EXPENSE_TOTAL", "8000000"),
    ("CARRIED_FROM_PREV", "5000000"),
    ("CARRIED_TO_NEXT", "7000000")
  ]

  /** The blank line, the data comment, the header, three sample rows and the empty text after the final newline. */
  const TemplateTail: seq<string> :=
    ["", DataNote, Join(HeaderFields, ','), Join(Sample1, ','), Join(Sample2, ','), Join(Sample3, ','), ""]

  function MetaLine(e: (string, string)): string { "#" + e.0 + "=" + e.1 }

  function MetaLines(es: seq<(string, string)>): (r: seq<string>)
    ensures |r| == |es| && forall i :: 0 <= i < |es| ==> r[i] == MetaLine(es[i])
  {
    seq(|es|, i requires 0 <= i < |es| => MetaLine(es[i]))
  }

  function TemplateLines(): seq<string>
  {
    TemplateHead + MetaLines(TemplateEntries) + TemplateTail
  }

  /** `generateCSVTemplate()`. */
  function CsvTemplate(): string
  {
    Join(TemplateLines(), '\n')
  }

  /** Neither a newline nor an `=`. */
  predicate Plain(s: string) { '\n' !in s && '=' !in s }

  /** A metadata assignment the parser reads back as written: trimmed, non-empty key and value, both plain. */
  predicate PlainEntry(e: (string, string))
  {
    && e.0 != [] && !IsSpace(e.0[0]) && !IsSpace(e.0[|e.0| - 1]) && Plain(e.0)
    && e.1 != [] && !IsSpace(e.1[0]) && !IsSpace(e.1[|e.1| - 1]) && Plain(e.1)
  }

  predicate AllPlain(lines: seq<string>) { forall i :: 0 <= i < |lines| ==> Plain(lines[i]) }

  predicate AllPlainEntries(es: seq<(string, string)>) { forall i :: 0 <= i < |es| ==> PlainEntry(es[i]) }

  predicate DistinctKeys(es: seq<(string, string)>)
  {
    forall i, j :: 0 <= i < j < |es| ==> es[i].0 != es[j].0
  }

  function KeysOf(es: seq<(string, string)>): set<string>
  {
    set i | 0 <= i < |es| :: es[i].0
  }

  lemma {:induction false} PlainJoin(pieces: seq<string>)
    requires AllPlain(pieces)
    ensures Plain(Join(pieces, ','))
  {
    if |pieces| > 1 {
      PlainJoin(pieces[..|pieces| - 1]);
    }
  }

  // ---------------------------------------------------------------- any text of the template's shape

  lemma MetaLineNoNewline(e: (string, string))
    requires PlainEntry(e)
    ensures '\n' !in MetaLine(e)
  {
  }

  /** Comment lines, then metadata lines, then lines without `=`, joined by newlines, split back into the same lines. */
  lemma ShapeSplit(head: seq<string>, es: seq<(string, string)>, tail: seq<string>)
    requires AllPlain(head) && AllPlainEntries(es) && AllPlain(tail) && |tail| >= 1
    ensures Split(Join(head + MetaLines(es) + tail, '\n'), '\n') == head + MetaLines(es) + tail
  {
    var metas := MetaLines(es);
    var lines := head + metas + tail;
    forall k | 0 <= k < |lines|
      ensures '\n' !in lines[k]
    {
      if k < |head| {
        assert lines[k] == head[k];
      } else if k < |head| + |metas| {
        assert lines[k] == metas[k - |head|];
        MetaLineNoNewline(es[k - |head|]);
      } else {
        assert lines[k] == tail[k - |head| - |metas|];
      }
    }
    SplitJoin(lines, '\n');
  }

  /** The metadata loop collects exactly the assignments of the metadata lines, in order. */
  lemma ShapeCollect(head: seq<string>, es: seq<(string, string)>, tail: seq<string>)
    requires AllPlain(head) && AllPlainEntries(es) && AllPlain(tail)
    ensures Collect(head + MetaLines(es) + tail, LineEntry) == es
  {
    forall i | 0 <= i < |head|
      ensures LineEntry(head[i]).None?
    {
      NoEqualsNoEntry(head[i]);
    }
    forall i | 0 <= i < |tail|
      ensures LineEntry(tail[i]).None?
    {
      NoEqualsNoEntry(tail[i]);
    }
    var metas := MetaLines(es);
    forall i | 0 <= i < |metas|
      ensures LineEntry(metas[i]) == Some(es[i])
    {
      assert PlainEntry(es[i]);
      MetaLineRoundTrip(es[i].0, es[i].1);
    }
    CollectNone(head, LineEntry);
    CollectNone(tail, LineEntry);
    CollectEvery(metas, LineEntry, es);
    CollectAppend(head, metas, LineEntry);
    CollectAppend(head + metas, tail, LineEntry);
  }

  /** The metadata parsed from such a text maps each key to its value and sets no other key. */
  lemma ShapeMetadata(head: seq<string>, es: seq<(string, string)>, tail: seq<string>)
    requires AllPlain(head) && AllPlainEntries(es) && AllPlain(tail) && |tail| >= 1
    requires DistinctKeys(es)
    ensures var meta := Metadata(Join(head + MetaLines(es) + tail, '\n'));
            && (forall i :: 0 <= i < |es| ==> es[i].0 in meta && meta[es[i].0] == es[i].1)
            && forall k :: k in meta ==> k in KeysOf(es)
  {
    ShapeSplit(head, es, tail);
    ShapeCollect(head, es, tail);
    forall i | 0 <= i < |es|
      ensures es[i].0 in Assign(es) && Assign(es)[es[i].0] == es[i].1
    {
      AssignLastWins(es, i);
    }
    forall k | k in Assign(es)
      ensures k in KeysOf(es)
    {
      AssignKeys(es, k);
    }
  }

  // ---------------------------------------------------------------- the template itself

  lemma TitlePlain()
    ensures Plain(Title)
  {
  }

  lemma MetaNotePlain()
    ensures Plain(MetaNote)
  {
  }

  lemma DataNotePlain()
    ensures Plain(DataNote)
  {
  }

  lemma HeaderPlain()
    ensures Plain(Join(HeaderFields, ','))
  {
    PlainJoin(HeaderFields);
  }

  lemma Sample1Plain()
    ensures Plain(Join(Sample1, ','))
  {
    PlainJoin(Sample1);
  }

  lemma Sample2Plain()
    ensures Plain(Join(Sample2, ','))
  {
    PlainJoin(Sample2);
  }

  lemma Sample3Plain()
    ensures Plain(Join(Sample3, ','))
  {
    PlainJoin(Sample3);
  }

  lemma KeysPlain()
    ensures forall i :: 0 <= i < |TemplateEntries| ==>
              var k := TemplateEntries[i].0; k != [] && !IsSpace(k[0]) && !IsSpace(k[|k| - 1]) && Plain(k)
  {
  }

  lemma ValuesPlain()
    ensures forall i :: 0 <= i < |TemplateEntries| ==>
              var v := TemplateEntries[i].1; v != [] && !IsSpace(v[0]) && !IsSpace(v[|v| - 1]) && Plain(v)
  {
  }

  lemma KeysDistinct()
    ensures DistinctKeys(TemplateEntries)
  {
  }

  /**
   * Parsing the template's text yields the seven sample metadata values: every key of the
   * template maps to its value, and no other key is set.
   */
  lemma TemplateMetadata()
    ensures var meta := Metadata(CsvTemplate());
            && (forall i :: 0 <= i < |TemplateEntries| ==>
                  TemplateEntries[i].0 in meta && meta[TemplateEntries[i].0] == TemplateEntries[i].1)
            && forall k :: k in meta ==> k in KeysOf(TemplateEntries)
  {
    TitlePlain();
    MetaNotePlain();
    DataNotePlain();
    HeaderPlain();
    Sample1Plain();
    Sample2Plain();
    Sample3Plain();
    KeysPlain();
    ValuesPlain();
    KeysDistinct();
    assert AllPlainEntries(TemplateEntries);
    assert AllPlain(TemplateHead);
    assert AllPlain(TemplateTail);
    ShapeMetadata(TemplateHead, TemplateEntries, TemplateTail);
  }
}
