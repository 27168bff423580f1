/** The record-aggregation step of the healthcare agent: each category label the
    classifier chose is looked up in the category table, the matching record
    file is read, and the records found are merged into one prompt for the
    answering model, or a fixed sentinel reply is given when none were found.

    The file system is a map from path to file contents (a path "exists" when
    it is a key), and the two language-model agents are functions passed in. */
module HealthcareAgent {
  import opened Text

  datatype Option<T> = None | Some(value: T)

  /** One collected record: the label exactly as the classifier wrote it, and the
      full text of the file that its stripped form maps to. */
  datatype Entry = Entry(context: string, record: string)

  /** The category table the agent is built with. */
  const Files: map<string, string> := map[
    "medical_record" := "./data/medical_record.txt",
    "image_record" := "./data/image_record.txt",
    "lab_record" := "./data/lab_record.txt"
  ]

  /** The reply when no record was found. */
  const Sentinel: string := "Nenhuma informação relevante foi encontrada nos registros."

  /** The reply when the classifier's answer could not be turned into a list. */
  const ParseFailure: string := "Ocorreu um erro ao identificar os contextos relevantes."

  /** The record text a label leads to: its stripped form must be a key of the
      table, and the path it maps to must be non-empty (Python treats "" as
      false) and present in the file system. */
  function Resolve(files: map<string, string>, fs: map<string, string>, name: string): Option<string>
  {
    var key := Strip(name);
    if key in files && files[key] != "" && files[key] in fs then Some(fs[files[key]]) else None
  }

  /** The entries collected from `contexts`: labels that do not resolve are
      skipped, the others yield an entry each, in input order. */
  function Collect(files: map<string, string>, fs: map<string, string>, contexts: seq<string>): seq<Entry>
  {
    if contexts == [] then []
    else
      var rest := Collect(files, fs, contexts[1..]);
      match Resolve(files, fs, contexts[0])
      case Some(text) => [Entry(contexts[0], text)] + rest
      case None => rest
  }

  /** There are never more entries than labels, and every entry's text is the
      contents of the file its stripped label maps to. */
  lemma {:induction false} CollectSound(files: map<string, string>, fs: map<string, string>, contexts: seq<string>)
    ensures |Collect(files, fs, contexts)| <= |contexts|
    ensures forall k :: 0 <= k < |Collect(files, fs, contexts)| ==>
              Resolve(files, fs, Collect(files, fs, contexts)[k].context) == Some(Collect(files, fs, contexts)[k].record)
  {
    CollectLength(files, fs, contexts);
    forall k | 0 <= k < |Collect(files, fs, contexts)|
      ensures Resolve(files, fs, Collect(files, fs, contexts)[k].context) == Some(Collect(files, fs, contexts)[k].record)
    {
      EntryResolves(files, fs, contexts, k);
    }
  }

  lemma {:induction false} CollectLength(files: map<string, string>, fs: map<string, string>, contexts: seq<string>)
    ensures |Collect(files, fs, contexts)| <= |contexts|
  {
    if contexts != [] {
      CollectLength(files, fs, contexts[1..]);
    }
  }

  lemma {:induction false} EntryResolves(files: map<string, string>, fs: map<string, string>, contexts: seq<string>, k: nat)
    requires k < |Collect(files, fs, contexts)|
    ensures Resolve(files, fs, Collect(files, fs, contexts)[k].context) == Some(Collect(files, fs, contexts)[k].record)
  {
    var r := Collect(files, fs, contexts);
    var rest := Collect(files, fs, contexts[1..]);
    if Resolve(files, fs, contexts[0]).Some? {
      if k > 0 {
        EntryResolves(files, fs, contexts[1..], k - 1);
        assert r[k] == rest[k - 1];
      }
    } else {
      EntryResolves(files, fs, contexts[1..], k);
    }
  }

  /** Collecting from one more label adds that label's entry, if any, at the end. */
  lemma {:induction false} CollectSnoc(files: map<string, string>, fs: map<string, string>, contexts: seq<string>, c: string)
    ensures Collect(files, fs, contexts + [c]) ==
            Collect(files, fs, contexts) + (match Resolve(files, fs, c)
                                            case Some(text) => [Entry(c, text)]
                                            case None => [])
  {
    if contexts != [] {
      assert (contexts + [c])[1..] == contexts[1..] + [c];
      CollectSnoc(files, fs, contexts[1..], c);
    } else {
      assert [c][1..] == [];
    }
  }

  /** The labels of a sequence of entries. */
  function Labels(es: seq<Entry>): (ls: seq<string>)
    ensures |ls| == |es|
    ensures forall k :: 0 <= k < |es| ==> ls[k] == es[k].context
  {
    if es == [] then [] else [es[0].context] + Labels(es[1..])
  }

  /** `a` can be obtained from `b` by deleting elements: either `b`'s first
      element is dropped, or it is kept as `a`'s first. */
  predicate IsSubsequence(a: seq<string>, b: seq<string>)
  {
    a == [] ||
    (b != [] && (IsSubsequence(a, b[1..]) || (a[0] == b[0] && IsSubsequence(a[1..], b[1..]))))
  }

  /** The entry labels keep the relative order of the labels in `contexts`. */
  lemma {:induction false} CollectKeepsOrder(files: map<string, string>, fs: map<string, string>, contexts: seq<string>)
    ensures IsSubsequence(Labels(Collect(files, fs, contexts)), contexts)
  {
    if contexts != [] {
      CollectKeepsOrder(files, fs, contexts[1..]);
      var r := Collect(files, fs, contexts);
      var rest := Collect(files, fs, contexts[1..]);
      if Resolve(files, fs, contexts[0]).Some? {
        assert Labels(r)[1..] == Labels(rest);
      } else {
        assert r == rest;
      }
    }
  }

  /** Labels are not deduplicated: for every label, the number of entries
      carrying it is the number of its occurrences in `contexts` when it
      resolves, and zero when it does not. */
  lemma {:induction false} CollectCounts(files: map<string, string>, fs: map<string, string>, contexts: seq<string>, x: string)
    ensures multiset(Labels(Collect(files, fs, contexts)))[x] ==
            if Resolve(files, fs, x).Some? then multiset(contexts)[x] else 0
  {
    if contexts != [] {
      CollectCounts(files, fs, contexts[1..], x);
      assert contexts == [contexts[0]] + contexts[1..];
      var r := Collect(files, fs, contexts);
      var rest := Collect(files, fs, contexts[1..]);
      if Resolve(files, fs, contexts[0]).Some? {
        assert Labels(r) == [contexts[0]] + Labels(rest);
      }
    }
  }

  /** Nothing is collected exactly when no label resolves (in particular when
      there are no labels). */
  lemma {:induction false} CollectEmpty(files: map<string, string>, fs: map<string, string>, contexts: seq<string>)
    ensures Collect(files, fs, contexts) == [] <==>
            forall k :: 0 <= k < |contexts| ==> Resolve(files, fs, contexts[k]).None?
  {
    if contexts != [] {
      CollectEmpty(files, fs, contexts[1..]);
      if Resolve(files, fs, contexts[0]).None? {
        forall k | 1 <= k < |contexts|
          ensures Resolve(files, fs, contexts[k]) == Resolve(files, fs, contexts[1..][k - 1])
        {
        }
      }
    }
  }

  /** The header that introduces each record in `combined_text`. */
  const Header: string := "Contexto: "

  /** Where the record starts in an entry's block: after the header, the
      label and a newline. */
  function RecordStart(e: Entry): nat
  {
    |Header| + |e.context| + 1
  }

  /** The text block of one entry (main.py's f-string "Contexto: ...\n..."). */
  function Block(e: Entry): string
  {
    Header + e.context + "\n" + e.record
  }

  /** The blocks of the entries, in entry order. */
  function Blocks(es: seq<Entry>): seq<string>
  {
    seq(|es|, k requires 0 <= k < |es| => Block(es[k]))
  }

  const Separator: string := "\n\n"

  /** `combined_text`: the blocks of the entries joined by blank lines. */
  function CombinedText(es: seq<Entry>): string
  {
    Join(Separator, Blocks(es))
  }

  /** The layout of `combined_text`: the block of entry `k` starts at
      `Offset(Separator, Blocks(es), k)`, it is followed by "\n\n" unless it is
      the last, the first starts at 0 and the text ends with the last; so the
      blocks appear exactly once each, in entry order. */
  lemma CombinedLayout(es: seq<Entry>, k: nat)
    requires k < |es|
    ensures Offset(Separator, Blocks(es), 0) == 0
    ensures OccursAt(Block(es[k]), CombinedText(es), Offset(Separator, Blocks(es), k))
    ensures k + 1 < |es| ==>
              OccursAt(Separator, CombinedText(es), Offset(Separator, Blocks(es), k) + |Block(es[k])|) &&
              Offset(Separator, Blocks(es), k + 1) == Offset(Separator, Blocks(es), k) + |Block(es[k])| + |Separator|
    ensures k + 1 == |es| ==> |CombinedText(es)| == Offset(Separator, Blocks(es), k) + |Block(es[k])|
  {
    JoinLayout(Separator, Blocks(es), k);
    OffsetNext(Separator, Blocks(es), k);
  }

  /** A prompt template with two holes: the text before the combined records,
      between them and the question, and after the question. */
  datatype Template = Template(head: string, middle: string, tail: string)

  /** The template of `task_prompt`, with the source's own indentation. */
  const AnswerTemplate: Template := Template(
    "\n        Você é um assistente virtual especializado em fornecer informações detalhadas com base em diferentes fontes de dados. \n"
    + "        Abaixo estão os registros relevantes do paciente:\n\n        ",
    "\n\n        Responda à pergunta do usuário com base nos registros combinados:\n"
    + "        Pergunta do usuário: \"",
    "\"\n        ")

  /** A template with its holes filled in; `task_prompt` is
      `Fill(AnswerTemplate, combined_text, question)`. */
  function Fill(t: Template, combined: string, question: string): string
  {
    t.head + combined + t.middle + question + t.tail
  }

  /** The prompt contains the combined records and, after them, the question. */
  lemma PromptContains(t: Template, combined: string, question: string)
    ensures OccursAt(combined, Fill(t, combined, question), |t.head|)
    ensures OccursAt(question, Fill(t, combined, question), |t.head| + |combined| + |t.middle|)
  {
  }

  /** An entry's block is the header, the label, a newline and the record. */
  lemma BlockLayout(e: Entry)
    ensures |Block(e)| == RecordStart(e) + |e.record|
    ensures OccursAt(Header, Block(e), 0)
    ensures OccursAt(e.context, Block(e), |Header|)
    ensures Block(e)[|Header| + |e.context|] == '\n'
    ensures OccursAt(e.record, Block(e), RecordStart(e))
  {
  }

  /** An occurrence in `combined_text` is an occurrence in the prompt, shifted
      by the prompt's head. */
  lemma InPrompt(s: string, i: int, t: Template, combined: string, question: string)
    requires OccursAt(s, combined, i)
    ensures OccursAt(s, Fill(t, combined, question), |t.head| + i)
  {
  }

  /** Every collected record stands in `combined_text` right after its header. */
  lemma RecordInCombined(es: seq<Entry>, k: nat)
    requires k < |es|
    ensures OccursAt(Block(es[k]), CombinedText(es), Offset(Separator, Blocks(es), k))
    ensures OccursAt(es[k].record, CombinedText(es),
                     Offset(Separator, Blocks(es), k) + RecordStart(es[k]))
  {
    CombinedLayout(es, k);
    BlockLayout(es[k]);
    OccursWithin(es[k].record, Block(es[k]), RecordStart(es[k]),
                 CombinedText(es), Offset(Separator, Blocks(es), k));
  }

  /** Every collected record, preceded by its header, is part of the prompt,
      at a position given by the layout of `combined_text`. */
  lemma PromptHoldsRecord(t: Template, es: seq<Entry>, question: string, k: nat)
    requires k < |es|
    ensures OccursAt(Block(es[k]), Fill(t, CombinedText(es), question),
                     |t.head| + Offset(Separator, Blocks(es), k))
    ensures OccursAt(es[k].record, Fill(t, CombinedText(es), question),
                     |t.head| + (Offset(Separator, Blocks(es), k) + RecordStart(es[k])))
  {
    var o := Offset(Separator, Blocks(es), k);
    var c := CombinedText(es);
    RecordInCombined(es, k);
    InPrompt(Block(es[k]), o, t, c, question);
    InPrompt(es[k].record, o + RecordStart(es[k]), t, c, question);
  }

  /** `handle_contexts`: looks every label up, collects the records found in
      input order and, unless none was found, asks `assistant` once with the
      prompt built from them. `asked` is the prompt the assistant received, or
      `None` when it was not called. */
  method HandleContexts(files: map<string, string>, fs: map<string, string>, contexts: seq<string>,
                        question: string, assistant: string -> string)
    returns (response: string, asked: Option<string>)
    ensures Collect(files, fs, contexts) == [] ==> response == Sentinel && asked == None
    ensures Collect(files, fs, contexts) != [] ==>
              asked == Some(Fill(AnswerTemplate, CombinedText(Collect(files, fs, contexts)), question)) &&
              response == assistant(asked.value)
  {
    var combined: seq<Entry> := [];
    for i := 0 to |contexts|
      invariant combined == Collect(files, fs, contexts[..i])
    {
      CollectSnoc(files, fs, contexts[..i], contexts[i]);
      assert contexts[..i + 1] == contexts[..i] + [contexts[i]];
      var key := Strip(contexts[i]);
      if key !in files || files[key] == "" || files[key] !in fs {
        continue;
      }
      var record := fs[files[key]];
      combined := combined + [Entry(contexts[i], record)];
    }
    assert contexts[..|contexts|] == contexts;
    if combined == [] {
      return Sentinel, None;
    }
    var prompt := Fill(AnswerTemplate, CombinedText(combined), question);
    response := assistant(prompt);
    asked := Some(prompt);
  }

  /** `run`: classifies the question, and either reports that the
      classification could not be read or hands the labels to
      `HandleContexts`. `classify` stands for the classifying agent followed
      by the conversion of its answer to a list; `None` is that conversion
      failing. */
  method Run(files: map<string, string>, fs: map<string, string>, question: string,
             classify: string -> Option<seq<string>>, assistant: string -> string)
    returns (response: string, asked: Option<string>)
    ensures classify(question).None? ==> response == ParseFailure && asked == None
    ensures classify(question).Some? && Collect(files, fs, classify(question).value) == [] ==>
              response == Sentinel && asked == None
    ensures classify(question).Some? && Collect(files, fs, classify(question).value) != [] ==>
              asked == Some(Fill(AnswerTemplate, CombinedText(Collect(files, fs, classify(question).value)), question)) &&
              response == assistant(asked.value)
  {
    var contexts := classify(question);
    if contexts.None? {
      return ParseFailure, None;
    }
    response, asked := HandleContexts(files, fs, contexts.value, question, assistant);
  }

  /** A label is looked up by its stripped form but stored as written: with the
      agent's table, " lab_record\n" yields one entry with that very label and
      the full contents of ./data/lab_record.txt. */
  lemma UnstrippedLabelKept(fs: map<string, string>)
    requires "./data/lab_record.txt" in fs
    ensures Collect(Files, fs, [" lab_record\n"]) == [Entry(" lab_record\n", fs["./data/lab_record.txt"])]
  {
    var s := " lab_record\n";
    assert s[1..] == "lab_record\n";
    assert TrimStart(s) == "lab_record\n";
    assert "lab_record\n"[..10] == "lab_record";
    assert TrimEnd("lab_record\n") == "lab_record";
  }

  /** Labels absent from the table, and table entries whose file is missing,
      are skipped without error. */
  lemma UnknownOrMissingSkipped(fs: map<string, string>)
    requires "./data/image_record.txt" !in fs
    ensures Collect(Files, fs, ["x_ray", "image_record"]) == []
  {
    StripUnpadded("x_ray");
    assert Resolve(Files, fs, "x_ray") == None;
    StripUnpadded("image_record");
    assert Resolve(Files, fs, "image_record") == None;
    var cs := ["x_ray", "image_record"];
    assert cs[1..] == ["image_record"];
    assert cs[1..][1..] == [];
    assert Collect(Files, fs, cs[1..]) == [];
  }

  /** Two labels that both resolve give two blocks, the first label's first,
      separated by a blank line. */
  lemma TwoRecordsInOrder(fs: map<string, string>)
    requires "./data/image_record.txt" in fs && "./data/lab_record.txt" in fs
    ensures CombinedText(Collect(Files, fs, ["image_record", "lab_record"])) ==
            Header + "image_record" + "\n" + fs["./data/image_record.txt"] + Separator +
            Header + "lab_record" + "\n" + fs["./data/lab_record.txt"]
  {
    var img, lab := fs["./data/image_record.txt"], fs["./data/lab_record.txt"];
    StripUnpadded("image_record");
    assert Resolve(Files, fs, "image_record") == Some(img);
    StripUnpadded("lab_record");
    assert Resolve(Files, fs, "lab_record") == Some(lab);
    TwoEntries(Files, fs, ["image_record", "lab_record"]);
    TwoBlocks(Entry("image_record", img), Entry("lab_record", lab));
  }

  lemma TwoBlocks(e0: Entry, e1: Entry)
    ensures CombinedText([e0, e1]) ==
            Header + e0.context + "\n" + e0.record + Separator + Header + e1.context + "\n" + e1.record
  {
    var bs := Blocks([e0, e1]);
    assert bs[1..] == [Block(e1)];
    assert Join(Separator, bs[1..]) == Block(e1);
    assert CombinedText([e0, e1]) == Block(e0) + Separator + Block(e1);
  }

  lemma TwoEntries(files: map<string, string>, fs: map<string, string>, cs: seq<string>)
    requires |cs| == 2 && Resolve(files, fs, cs[0]).Some? && Resolve(files, fs, cs[1]).Some?
    ensures Collect(files, fs, cs) ==
            [Entry(cs[0], Resolve(files, fs, cs[0]).value), Entry(cs[1], Resolve(files, fs, cs[1]).value)]
  {
    assert cs[1..] == [cs[1]];
    assert cs[1..][1..] == [];
    assert Collect(files, fs, cs[1..]) == [Entry(cs[1], Resolve(files, fs, cs[1]).value)];
  }
}
