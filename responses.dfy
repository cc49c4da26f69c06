/** The part of an OpenAI Responses API result that the text extraction
    reads, and the loop that gathers its text parts. */
module Responses {
  import opened Wrappers
  import opened Seqs

  /** One content part: whether `type === "output_text"`, and `text` when
      it is a string. */
  datatype Part = Part(isOutputText: bool, text: Option<string>)

  /** One element of `output`; `content` that is not an array reads as
      empty. */
  datatype Block = Block(content: seq<Part>)

  /** `output_text` when it is a string, and `output` (empty when it is not
      an array). */
  datatype Response = Response(outputText: Option<string>, output: seq<Block>)

  /** What a part adds to the text. */
  function PartText(p: Part): string
  {
    if p.isOutputText && p.text.Some? then p.text.value else ""
  }

  /** The text parts of one block, concatenated in order. */
  function BlockText(parts: seq<Part>): string
  {
    if parts == [] then "" else BlockText(Init(parts)) + PartText(Last(parts))
  }

  /** The text parts of all blocks, concatenated in order. */
  function OutputConcat(blocks: seq<Block>): string
  {
    if blocks == [] then "" else OutputConcat(Init(blocks)) + BlockText(Last(blocks).content)
  }

  /** The nested `for ... of` loops that append `c.text` to `out`, proved
      against `OutputConcat`. */
  method ConcatOutputText(blocks: seq<Block>) returns (out: string)
    ensures out == OutputConcat(blocks)
  {
    out := "";
    for i := 0 to |blocks|
      invariant out == OutputConcat(blocks[..i])
    {
      out := AppendBlock(blocks[..i], blocks[i], out);
      assert blocks[..i] + [blocks[i]] == blocks[..i + 1];
    }
    assert blocks[..|blocks|] == blocks;
  }

  /** The inner loop over the parts of block `b`. */
  method AppendBlock(ghost done: seq<Block>, b: Block, acc: string) returns (out: string)
    requires acc == OutputConcat(done)
    ensures out == OutputConcat(done + [b])
  {
    out := acc;
    var content := b.content;
    for j := 0 to |content|
      invariant out == acc + BlockText(content[..j])
    {
      var c := content[j];
      assert Init(content[..j + 1]) == content[..j] && Last(content[..j + 1]) == c;
      if c.isOutputText && c.text.Some? {
        out := out + c.text.value;
      } else {
        assert out + PartText(c) == out;
      }
    }
    assert content[..|content|] == content;
    assert Init(done + [b]) == done && Last(done + [b]) == b;
  }

  /** A block's text is empty exactly when none of its parts adds text. */
  lemma {:induction false} BlockTextEmpty(parts: seq<Part>)
    ensures BlockText(parts) == "" <==> forall j :: 0 <= j < |parts| ==> PartText(parts[j]) == ""
  {
    if parts != [] {
      BlockTextEmpty(Init(parts));
      NoPartTextSnoc(parts);
    }
  }

  /** No part adds text exactly when none before the last does and the
      last does not. */
  lemma NoPartTextSnoc(parts: seq<Part>)
    requires parts != []
    ensures (forall j :: 0 <= j < |parts| ==> PartText(parts[j]) == "")
        <==> (forall j :: 0 <= j < |Init(parts)| ==> PartText(Init(parts)[j]) == "") && PartText(Last(parts)) == ""
  {
    assert forall j :: 0 <= j < |Init(parts)| ==> Init(parts)[j] == parts[j];
  }

  /** The gathered text is empty exactly when no part of any block adds
      text. */
  lemma {:induction false} OutputConcatEmpty(blocks: seq<Block>)
    ensures OutputConcat(blocks) == "" <==>
              forall k :: 0 <= k < |blocks| ==> BlockText(blocks[k].content) == ""
  {
    if blocks != [] {
      OutputConcatEmpty(Init(blocks));
      assert forall k :: 0 <= k < |Init(blocks)| ==> Init(blocks)[k] == blocks[k];
    }
  }

  /** Gathering distributes over the blocks: each block's text follows the
      text of the blocks before it. */
  lemma {:induction false} OutputConcatAppend(a: seq<Block>, b: seq<Block>)
    ensures OutputConcat(a + b) == OutputConcat(a) + OutputConcat(b)
    decreases |b|
  {
    if b == [] {
      assert a + b == a;
    } else {
      assert Init(a + b) == a + Init(b) && Last(a + b) == Last(b);
      OutputConcatAppend(a, Init(b));
    }
  }
}
