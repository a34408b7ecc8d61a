/**
 * format_source (app/utils/user_output.py): the side-panel text of one
 * retrieved source: a line per whitelisted metadata entry, then the node
 * text and its score.
 */
module UserOutput {

  import opened Text
  import opened Nodes

  /** SHOW_METADATA */
  const ShowMetadata: seq<string> := ["Nome asset", "Tipo asset", "Descrizione", "Nome tabella", "Schema"]

  /** (' '.join(k.split('_'))).capitalize() */
  function Label(k: string): string
  {
    Capitalize(Join(" ", Split(k, '_')))
  }

  /** f"**{label}**: {v}\n" */
  function MetadataLine(k: string, v: string): string
  {
    "**" + Label(k) + "**: " + v + "\n"
  }

  /** What the loop adds for one metadata item. */
  function ItemLine(item: (string, string)): string
  {
    if item.0 in ShowMetadata then MetadataLine(item.0, item.1) else ""
  }

  /** The lines the loop adds for these metadata items, in iteration order. */
  function MetadataLines(items: Metadata): string
  {
    if |items| == 0 then "" else MetadataLines(items[..|items| - 1]) + ItemLine(items[|items| - 1])
  }

  /** The two sections that always close the text. */
  function Sections(source: NodeWithScore): string
  {
    "\n\n**Descrizione asset:**\n" + source.node.text + "\n\n**Similarity score:**\n" + ScoreText(source.score)
  }

  function FormatSourceText(source: NodeWithScore): string
  {
    MetadataLines(source.node.metadata) + Sections(source)
  }

  lemma MetadataLinesSnoc(items: Metadata, i: nat)
    requires i < |items|
    ensures MetadataLines(items[..i + 1]) == MetadataLines(items[..i]) + ItemLine(items[i])
  {
    assert items[..i + 1][..i] == items[..i];
  }

  /** format_source: output_str grows by += over the metadata items, then the two sections. */
  method FormatSource(source: NodeWithScore) returns (output: string)
    ensures output == FormatSourceText(source)
  {
    var items := source.node.metadata;
    output := "";
    for i := 0 to |items|
      invariant output == MetadataLines(items[..i])
    {
      var (k, v) := items[i];
      MetadataLinesSnoc(items, i);
      if k in ShowMetadata {
        output := output + MetadataLine(k, v);
      }
    }
    assert items[..|items|] == items;
    var lines := output;
    output := output + "\n\n**Descrizione asset:**\n" + source.node.text;
    output := output + "\n\n**Similarity score:**\n" + ScoreText(source.score);
    Regroup4(lines, "\n\n**Descrizione asset:**\n", source.node.text, "\n\n**Similarity score:**\n", ScoreText(source.score));
  }

  /** The appends of the two closing sections, regrouped. */
  lemma Regroup4(o: string, a: string, b: string, c: string, d: string)
    ensures o + a + b + c + d == o + (a + b + c + d)
  {
  }

  /** capitalize() leaves a word alone that already starts upper case and continues lower case. */
  lemma CapitalizeFixed(s: string)
    requires |s| > 0 && !('a' <= s[0] <= 'z')
    requires forall i :: 1 <= i < |s| ==> !('A' <= s[i] <= 'Z')
    ensures Capitalize(s) == s
  {
    LowerAllAt(s[1..]);
    assert Capitalize(s) == [Upper(s[0])] + LowerAll(s[1..]);
    assert forall i :: 0 <= i < |s| - 1 ==> LowerAll(s[1..])[i] == s[1..][i];
    assert LowerAll(s[1..]) == s[1..];
    assert [s[0]] + s[1..] == s;
  }

  /** A key without underscores is labelled by its capitalization. */
  lemma LabelNoUnderscore(k: string)
    requires '_' !in k
    ensures Label(k) == Capitalize(k)
  {
    SplitNoSeparator(k, '_');
  }

  /** A capitalized word or phrase: one upper-case letter, then lower case and spaces. */
  predicate Capitalized(k: string)
  {
    |k| > 0 && 'A' <= k[0] <= 'Z' && forall i :: 1 <= i < |k| ==> k[i] == ' ' || 'a' <= k[i] <= 'z'
  }

  lemma CapitalizedLabel(k: string)
    requires Capitalized(k)
    ensures Label(k) == k
  {
    LabelNoUnderscore(k);
    CapitalizeFixed(k);
  }

  lemma ShownNamesCapitalized(k: string)
    requires k in ShowMetadata
    ensures Capitalized(k)
  {
    if k == "Nome asset" {
      assert Capitalized("Nome asset");
    } else if k == "Tipo asset" {
      assert Capitalized("Tipo asset");
    } else if k == "Descrizione" {
      assert Capitalized("Descrizione");
    } else if k == "Nome tabella" {
      assert Capitalized("Nome tabella");
    } else {
      assert Capitalized("Schema");
    }
  }

  /** Each whitelisted name is printed exactly as written. */
  lemma ShownLabels()
    ensures forall k :: k in ShowMetadata ==> Label(k) == k
  {
    forall k | k in ShowMetadata ensures Label(k) == k {
      ShownNamesCapitalized(k);
      CapitalizedLabel(k);
    }
  }

  /** Metadata lines follow the items' order. */
  lemma {:induction false} MetadataLinesAppend(a: Metadata, b: Metadata)
    ensures MetadataLines(a + b) == MetadataLines(a) + MetadataLines(b)
    decreases |b|
  {
    if |b| == 0 {
      assert a + b == a;
    } else {
      var n := |b| - 1;
      var ab := a + b;
      var x, y, z := MetadataLines(a), MetadataLines(b[..n]), ItemLine(b[n]);
      assert MetadataLines(ab) == x + y + z by {
        assert ab[..|ab| - 1] == a + b[..n];
        assert ab[|ab| - 1] == b[n];
        MetadataLinesAppend(a, b[..n]);
      }
      assert MetadataLines(b) == y + z;
      ConcatAssoc(x, y, z);
    }
  }

  /**
   * One item gives a line exactly when its key is, case for case, one of
   * the whitelisted names; the line is "**key**: value" and a newline.
   */
  lemma MetadataLineOfItem(k: string, v: string)
    ensures MetadataLines([(k, v)]) == if k in ShowMetadata then "**" + k + "**: " + v + "\n" else ""
  {
    ShownLabels();
    assert [(k, v)][..0] == [];
  }

  /** Items whose keys are not whitelisted produce no line. */
  lemma {:induction false} NoShownKeysNoLines(items: Metadata)
    requires forall i :: 0 <= i < |items| ==> items[i].0 !in ShowMetadata
    ensures MetadataLines(items) == ""
  {
    if |items| > 0 {
      NoShownKeysNoLines(items[..|items| - 1]);
    }
  }

  /**
   * The text always ends with the description section and the score
   * section, so it is never empty and the 'Empty node' fallback is never
   * shown.
   */
  lemma FormatSourceSections(source: NodeWithScore)
    ensures |Sections(source)| <= |FormatSourceText(source)|
    ensures FormatSourceText(source)[|FormatSourceText(source)| - |Sections(source)|..] == Sections(source)
    ensures FormatSourceText(source) != ""
  {
    var m := MetadataLines(source.node.metadata);
    assert FormatSourceText(source)[|m|..] == Sections(source);
  }
}
