/**
  What the "Transcribe and Diarize" button reads from the form: the topics,
  typed as a comma-separated list; the sentence-embedding models whose
  checkboxes are ticked; and the table from a model's short name to the
  identifier it is published under.
 */
module Selection {
  import opened Wrappers
  import opened Text

  // Topics

  /** The stripped pieces that are not empty, in order. */
  function KeepStripped(pieces: seq<string>): (topics: seq<string>)
    ensures |topics| <= |pieces|
  {
    if pieces == [] then [] else Kept(pieces[0]) + KeepStripped(pieces[1..])
  }

  /** The strip of a piece, if it is not empty. */
  function Kept(piece: string): seq<string> {
    if Strip(piece) != [] then [Strip(piece)] else []
  }

  /** The topics typed in the field: the comma-separated pieces, stripped,
      with the empty ones dropped, in order. */
  function ParseTopics(input: string): seq<string> {
    KeepStripped(Split(input, ','))
  }

  /** The first piece is kept or dropped ahead of the rest. */
  lemma KeepStrippedCons(piece: string, rest: seq<string>)
    ensures KeepStripped([piece] + rest) == Kept(piece) + KeepStripped(rest)
  {
    assert ([piece] + rest)[1..] == rest;
  }

  /** Keeping stripped pieces works piece by piece, in order. */
  lemma {:induction false} KeepStrippedAppend(a: seq<string>, b: seq<string>)
    ensures KeepStripped(a + b) == KeepStripped(a) + KeepStripped(b)
  {
    if a == [] {
      assert a + b == b;
    } else {
      ConsAppend(a, b);
      calc {
        KeepStripped(a + b);
        { KeepStrippedCons(a[0], a[1..] + b); }
        Kept(a[0]) + KeepStripped(a[1..] + b);
        { KeepStrippedAppend(a[1..], b); }
        Kept(a[0]) + (KeepStripped(a[1..]) + KeepStripped(b));
        (Kept(a[0]) + KeepStripped(a[1..])) + KeepStripped(b);
        { KeepStrippedCons(a[0], a[1..]); }
        KeepStripped(a) + KeepStripped(b);
      }
    }
  }

  /** `t` is the strip of one of the pieces. */
  predicate StripOfSome(t: string, pieces: seq<string>) {
    exists j | 0 <= j < |pieces| :: t == Strip(pieces[j])
  }

  /** Each topic is the non-empty strip of some piece. */
  lemma {:induction false} KeepStrippedOrigin(pieces: seq<string>)
    ensures forall t | t in KeepStripped(pieces) :: t != [] && StripOfSome(t, pieces)
  {
    if pieces != [] {
      KeepStrippedOrigin(pieces[1..]);
      forall t | t in KeepStripped(pieces[1..])
        ensures StripOfSome(t, pieces)
      {
        var j :| 0 <= j < |pieces[1..]| && t == Strip(pieces[1..][j]);
        assert t == Strip(pieces[j + 1]);
      }
      assert StripOfSome(Strip(pieces[0]), pieces);
    }
  }

  /** The strip of a piece without `c` does not contain `c` either. */
  lemma StripExcludes(p: string, c: char)
    requires c !in p
    ensures c !in Strip(p)
  {
    StripInfix(p);
    var l := LeadingSpaces(p);
    forall k | 0 <= k < |Strip(p)|
      ensures Strip(p)[k] != c
    {
      assert Strip(p)[k] == p[l + k];
    }
  }

  /** Every topic is non-empty, has no whitespace at either end and holds
      no comma. */
  lemma TopicsShape(input: string)
    ensures forall k | 0 <= k < |ParseTopics(input)| ::
      var topic := ParseTopics(input)[k];
      && topic != []
      && !IsSpace(topic[0]) && !IsSpace(topic[|topic| - 1])
      && ',' !in topic
  {
    var pieces := Split(input, ',');
    KeepStrippedOrigin(pieces);
    SplitPieces(input, ',');
    forall k | 0 <= k < |ParseTopics(input)|
      ensures var topic := ParseTopics(input)[k];
        topic != [] && !IsSpace(topic[0]) && !IsSpace(topic[|topic| - 1]) && ',' !in topic
    {
      assert ParseTopics(input)[k] in KeepStripped(pieces);
      var j :| 0 <= j < |pieces| && ParseTopics(input)[k] == Strip(pieces[j]);
      StripEnds(pieces[j]);
      StripExcludes(pieces[j], ',');
    }
  }

  /** A comma cuts the topic list in two: the topics of `a,b` are those of
      `a` followed by those of `b`. */
  lemma ParseTopicsConcat(a: string, b: string)
    ensures ParseTopics(a + [','] + b) == ParseTopics(a) + ParseTopics(b)
  {
    SplitConcat(a, b, ',');
    KeepStrippedAppend(Split(a, ','), Split(b, ','));
  }

  /** A piece without commas gives its strip as the one topic, or no topic
      when it is all whitespace. */
  lemma ParseTopicsPiece(p: string)
    requires ',' !in p
    ensures ParseTopics(p) == if Strip(p) == [] then [] else [Strip(p)]
  {
    assert Split(p, ',') == [p] by {
      var parts := Split(p, ',');
      JoinSplit(p, ',');
      if |parts| > 1 {
        assert false;
      }
    }
  }

  /** A piece without commas or surrounding whitespace is the one topic. */
  lemma ParseTopicsSingle(topic: string)
    requires topic != [] && !IsSpace(topic[0]) && !IsSpace(topic[|topic| - 1]) && ',' !in topic
    ensures ParseTopics(topic) == [topic]
  {
    ParseTopicsPiece(topic);
    StripUnpadded(topic);
  }

  /** Only commas and whitespace. */
  predicate Blank(s: string) {
    forall k | 0 <= k < |s| :: s[k] == ',' || IsSpace(s[k])
  }

  /** There are no topics exactly when the input holds nothing but commas
      and whitespace. */
  lemma {:induction false} NoTopicsBlank(input: string)
    ensures ParseTopics(input) == [] <==> Blank(input)
    decreases |input|
  {
    if input == [] {
      assert Split(input, ',') == [[]];
    } else {
      var rest := Split(input[1..], ',');
      NoTopicsBlank(input[1..]);
      assert Blank(input) <==> (input[0] == ',' || IsSpace(input[0])) && Blank(input[1..]) by {
        if Blank(input[1..]) {
          forall k | 1 <= k < |input| ensures input[k] == ',' || IsSpace(input[k]) {
            assert input[k] == input[1..][k - 1];
          }
        }
      }
      if input[0] == ',' {
        assert Split(input, ',') == [[]] + rest;
        assert ([[]] + rest)[1..] == rest;
      } else {
        var first := [input[0]] + rest[0];
        assert Split(input, ',') == [first] + rest[1..];
        assert ([first] + rest[1..])[1..] == rest[1..];
        StripEmpty(first);
        StripEmpty(rest[0]);
        assert Strip(first) == [] <==> IsSpace(input[0]) && Strip(rest[0]) == [] by {
          forall k | 0 <= k < |rest[0]| ensures first[k + 1] == rest[0][k] { }
          if IsSpace(input[0]) && Strip(rest[0]) == [] {
            forall k | 0 <= k < |first| ensures IsSpace(first[k]) {
              if k > 0 { assert first[k] == rest[0][k - 1]; }
            }
          }
        }
      }
    }
  }

  // Models

  /** A model checkbox: the value of its `IntVar` and the model's short name. */
  datatype ModelVar = ModelVar(value: int, model: string)

  /** The models offered, in checkbox order. */
  const CheckboxModels: seq<string> :=
    ["paraphrase-MiniLM-L12-v2", "paraphrase-mpnet-base-v2", "all-mpnet-base-v2", "LaBSE"]

  /** The model ticked when the form opens. */
  const DefaultModel: string := "paraphrase-mpnet-base-v2"

  /** The checkboxes as the form builds them: one per offered model, each
      unticked except the default model. */
  function InitialVars(): seq<ModelVar> {
    seq(|CheckboxModels|, i requires 0 <= i < |CheckboxModels| =>
      ModelVar(if CheckboxModels[i] == DefaultModel then 1 else 0, CheckboxModels[i]))
  }

  /** The models whose checkbox holds the value 1, in checkbox order. */
  function SelectModels(vars: seq<ModelVar>): (models: seq<string>)
    ensures |models| <= |vars|
  {
    if vars == [] then [] else Ticked(vars[0]) + SelectModels(vars[1..])
  }

  /** The model of a checkbox, if it is ticked. */
  function Ticked(v: ModelVar): seq<string> {
    if v.value == 1 then [v.model] else []
  }

  /** A model is selected exactly when one of its checkboxes is ticked. */
  lemma {:induction false} SelectModelsMembers(vars: seq<ModelVar>, model: string)
    ensures model in SelectModels(vars) <==> exists i | 0 <= i < |vars| :: vars[i].value == 1 && vars[i].model == model
  {
    if vars != [] {
      SelectModelsMembers(vars[1..], model);
      if exists i | 0 <= i < |vars| :: vars[i].value == 1 && vars[i].model == model {
        var i :| 0 <= i < |vars| && vars[i].value == 1 && vars[i].model == model;
        if i > 0 {
          assert vars[1..][i - 1] == vars[i];
        }
      }
      if exists i | 0 <= i < |vars[1..]| :: vars[1..][i].value == 1 && vars[1..][i].model == model {
        var i :| 0 <= i < |vars[1..]| && vars[1..][i].value == 1 && vars[1..][i].model == model;
        assert vars[i + 1] == vars[1..][i];
      }
    }
  }

  /** Selection keeps checkbox order: selecting from two runs of checkboxes
      selects from each in turn. */
  lemma {:induction false} SelectModelsAppend(a: seq<ModelVar>, b: seq<ModelVar>)
    ensures SelectModels(a + b) == SelectModels(a) + SelectModels(b)
  {
    if a == [] {
      assert a + b == b;
    } else {
      ConsAppend(a, b);
      calc {
        SelectModels(a + b);
        { SelectModelsCons(a[0], a[1..] + b); }
        Ticked(a[0]) + SelectModels(a[1..] + b);
        { SelectModelsAppend(a[1..], b); }
        Ticked(a[0]) + (SelectModels(a[1..]) + SelectModels(b));
        (Ticked(a[0]) + SelectModels(a[1..])) + SelectModels(b);
        { SelectModelsCons(a[0], a[1..]); }
        SelectModels(a) + SelectModels(b);
      }
    }
  }

  /** The first checkbox is read ahead of the rest. */
  lemma SelectModelsCons(v: ModelVar, rest: seq<ModelVar>)
    ensures SelectModels([v] + rest) == Ticked(v) + SelectModels(rest)
  {
    assert ([v] + rest)[1..] == rest;
  }

  /** Untouched, the form selects the default model alone. */
  lemma InitialSelection()
    ensures SelectModels(InitialVars()) == [DefaultModel]
  {
    var vars := InitialVars();
    assert vars[1..][1..][1..][1..] == [];
  }

  // Model identifiers

  /** The organisation the identifiers are published under. */
  const Publisher: string := "sentence-transformers/"

  /** The identifier each offered model is published under. */
  const ModelIds: map<string, string> := map[
    "paraphrase-MiniLM-L12-v2" := Publisher + "paraphrase-multilingual-MiniLM-L12-v2",
    "paraphrase-mpnet-base-v2" := Publisher + "paraphrase-multilingual-mpnet-base-v2",
    "all-mpnet-base-v2" := Publisher + "all-mpnet-base-v2",
    "LaBSE" := Publisher + "LaBSE"
  ]

  /** The identifier a model is published under; none for a model outside
      the table. */
  function ModelId(name: string): Option<string> {
    if name in ModelIds then Some(ModelIds[name]) else None
  }

  /** Exactly the offered models have an identifier. */
  lemma ModelIdKnown(name: string)
    ensures ModelId(name).Some? <==> name in CheckboxModels
  {
    assert ModelIds.Keys == set m | m in CheckboxModels;
  }

  /** Every identifier is a non-empty name under the publisher. */
  lemma ModelIdPublished(name: string)
    ensures ModelId(name).Some? ==> ModelId(name).value != [] && Publisher <= ModelId(name).value
  {
    if name in ModelIds {
      var id := ModelIds[name];
      assert id == Publisher + id[|Publisher|..];
    }
  }

  /** Different models have different identifiers. */
  lemma ModelIdInjective(a: string, b: string)
    requires ModelId(a).Some? && ModelId(b).Some? && ModelId(a) == ModelId(b)
    ensures a == b
  {
    // Two identifiers are as long as each other but differ after the
    // common "paraphrase-multilingual-"; the others differ in length.
    assert |ModelIds["paraphrase-MiniLM-L12-v2"]| == |ModelIds["paraphrase-mpnet-base-v2"]| == 59;
    assert ModelIds["paraphrase-MiniLM-L12-v2"][46] == 'M' && ModelIds["paraphrase-mpnet-base-v2"][46] == 'm';
    assert |ModelIds["all-mpnet-base-v2"]| == 39;
    assert |ModelIds["LaBSE"]| == 27;
    ModelIdKnown(a);
    ModelIdKnown(b);
  }
}
