/** `serialize`: the serialiser's prefix, one record per container kind in
    the fixed order of the `debuggers` tuple, then the suffix. The node
    sizes themselves are measured by a probe that is a parameter here. */
module Driver {
  import opened Text
  import opened Serializers

  /** The container kinds whose node sizes are measured. */
  datatype Container =
    | ForwardList | List
    | Set | Multiset | UnorderedSet | UnorderedMultiset
    | Map | Multimap | UnorderedMap | UnorderedMultimap

  /** The order of the `debuggers` tuple. */
  const Containers: seq<Container> :=
    [ ForwardList, List,
      Set, Multiset, UnorderedSet, UnorderedMultiset,
      Map, Multimap, UnorderedMap, UnorderedMultimap ]

  /** Every kind is measured, and exactly once. */
  lemma ContainersOnceEach()
    ensures |Containers| == 10
    ensures forall c: Container :: c in Containers
    ensures forall i, j :: 0 <= i < j < |Containers| ==> Containers[i] != Containers[j]
  {
    forall c: Container ensures c in Containers {
      match c
      case ForwardList => assert Containers[0] == c;
      case List => assert Containers[1] == c;
      case Set => assert Containers[2] == c;
      case Multiset => assert Containers[3] == c;
      case UnorderedSet => assert Containers[4] == c;
      case UnorderedMultiset => assert Containers[5] == c;
      case Map => assert Containers[6] == c;
      case Multimap => assert Containers[7] == c;
      case UnorderedMap => assert Containers[8] == c;
      case UnorderedMultimap => assert Containers[9] == c;
    }
  }

  /** The block of lines written for each container kind, in order. */
  function Blocks(s: Serializer, probe: Container -> Result): (bs: seq<seq<string>>)
    ensures |bs| == |Containers|
    ensures forall k :: 0 <= k < |Containers| ==> bs[k] == RecordLines(s, probe(Containers[k]))
  {
    seq(|Containers|, k requires 0 <= k < |Containers| => RecordLines(s, probe(Containers[k])))
  }

  /** The lines `serialize` writes. */
  function OutputLines(s: Serializer, probe: Container -> Result): seq<string> {
    PrefixLines(s) + Concat(Blocks(s, probe)) + SuffixLines(s)
  }

  /** `serialize`: prefix, the records, suffix. */
  method Serialize(s: Serializer, probe: Container -> Result, out: string) returns (o: string)
    ensures o == out + Unlines(OutputLines(s, probe))
  {
    ghost var prefix := PrefixLines(s);
    ghost var body := Concat(Blocks(s, probe));
    o := WritePrefix(s, out);
    o := SerializeRecords(s, probe, o);
    AppendLines(out, prefix, body);
    o := WriteSuffix(s, o);
    AppendLines(out, prefix + body, SuffixLines(s));
  }

  /** `serialize_impl`: one record per container kind, in order. */
  method SerializeRecords(s: Serializer, probe: Container -> Result, out: string) returns (o: string)
    ensures o == out + Unlines(Concat(Blocks(s, probe)))
  {
    ghost var bs := Blocks(s, probe);
    ghost var done: seq<string> := [];
    o := out;
    assert bs[..0] == [];
    for k := 0 to |Containers|
      invariant done == Concat(bs[..k])
      invariant o == out + Unlines(done)
    {
      var r := probe(Containers[k]);
      assert bs[k] == RecordLines(s, r);
      o := Emit(s, o, r);
      AppendLines(out, done, bs[k]);
      ConcatSnoc(bs, k);
      done := done + bs[k];
    }
    assert bs[..|Containers|] == bs;
  }

  /** The output is the prefix, then the block of each container kind in
      the order of `Containers`, then the suffix. */
  lemma OutputOrder(s: Serializer, probe: Container -> Result, k: nat)
    requires k < |Containers|
    ensures var ls, bs, p := OutputLines(s, probe), Blocks(s, probe), |PrefixLines(s)|;
      && ls[..p] == PrefixLines(s)
      && ls[|ls| - |SuffixLines(s)|..] == SuffixLines(s)
      && BlockStart(bs, k + 1) == BlockStart(bs, k) + |bs[k]|
      && p + BlockStart(bs, k + 1) <= |ls|
      && ls[p + BlockStart(bs, k)..p + BlockStart(bs, k + 1)] == RecordLines(s, probe(Containers[k]))
  {
    FramedEnds(PrefixLines(s), Concat(Blocks(s, probe)), SuffixLines(s));
    FramedBlock(PrefixLines(s), Blocks(s, probe), SuffixLines(s), k);
  }

  /** Number of (alignment, size) pairs measured for the first `k` kinds. */
  function Pairs(probe: Container -> Result, k: nat): nat
    requires k <= |Containers|
  {
    if k == 0 then 0 else Pairs(probe, k - 1) + |probe(Containers[k - 1]).sizes|
  }

  lemma {:induction false} BlocksCount(s: Serializer, probe: Container -> Result, k: nat)
    requires k <= |Containers|
    ensures s.Code? ==> |Concat(Blocks(s, probe)[..k])| == 12 * k + 5 * Pairs(probe, k)
    ensures !s.Code? ==> |Concat(Blocks(s, probe)[..k])| == k + Pairs(probe, k)
  {
    if k > 0 {
      var bs := Blocks(s, probe);
      BlocksCount(s, probe, k - 1);
      ConcatSnoc(bs, k - 1);
      RecordLinesCount(s, probe(Containers[k - 1]));
    }
  }

  /** The simple and verbose outputs have no prefix or suffix lines: one
      header line per container kind and one line per pair. The code
      output has the three prefix lines, twelve lines per kind, five per
      pair and the END banner. */
  lemma OutputLineCount(s: Serializer, probe: Container -> Result)
    ensures s.Code? ==> |OutputLines(s, probe)| == 124 + 5 * Pairs(probe, |Containers|)
    ensures !s.Code? ==> |OutputLines(s, probe)| == 10 + Pairs(probe, |Containers|)
  {
    var bs := Blocks(s, probe);
    BlocksCount(s, probe, |Containers|);
    assert bs[..|Containers|] == bs;
  }

  /** Under the simple and verbose serialisers nothing precedes the first
      container's header line. */
  lemma PlainOutputStartsWithRecord(s: Serializer, probe: Container -> Result)
    requires !s.Code?
    ensures OutputLines(s, probe)[0]
         == (if s.Simple? then probe(ForwardList).name + ":"
             else "For container '" + probe(ForwardList).name + "':")
  {
    var r := probe(ForwardList);
    OutputOrder(s, probe, 0);
    assert Blocks(s, probe)[..0] == [];
    RecordLinesCount(s, r);
    SimpleShape(r);
    VerboseShape(r);
  }

  /** No line written for a record by the code serialiser is a banner. */
  lemma BannersNotInBlocks(w: nat, probe: Container -> Result)
    ensures BeginBanner !in Concat(Blocks(Code(w), probe))
    ensures EndBanner !in Concat(Blocks(Code(w), probe))
  {
    var bs := Blocks(Code(w), probe);
    forall l | l in Concat(bs) ensures NoSlashStart(l) {
      ConcatMember(bs, l);
      var k :| 0 <= k < |bs| && l in bs[k];
      RecordLinesNoSlash(w, probe(Containers[k]));
    }
    assert !NoSlashStart(BeginBanner) && !NoSlashStart(EndBanner);
  }

  /** The code output opens with the tool comment, the BEGIN banner and an
      empty line, and closes with the END banner. */
  lemma CodeBannerLines(w: nat, probe: Container -> Result)
    ensures var ls := OutputLines(Code(w), probe);
      && |ls| >= 4
      && ls[0] == GeneratedBy && ls[1] == BeginBanner && ls[2] == ""
      && ls[|ls| - 1] == EndBanner
  {
  }

  /** Each banner occurs exactly once in the code output. */
  lemma CodeBannerCounts(w: nat, probe: Container -> Result)
    ensures multiset(OutputLines(Code(w), probe))[BeginBanner] == 1
    ensures multiset(OutputLines(Code(w), probe))[EndBanner] == 1
  {
    var s := Code(w);
    var pre, body, post := PrefixLines(s), Concat(Blocks(s, probe)), SuffixLines(s);
    BannersNotInBlocks(w, probe);
    BannerCounts(s);
    FramedCount(pre, body, post, BeginBanner);
    FramedCount(pre, body, post, EndBanner);
    assert multiset(body)[BeginBanner] == 0 && multiset(body)[EndBanner] == 0;
  }

  /** The text `serialize` writes with the code serialiser starts with the
      two comment lines and an empty line. */
  lemma CodeTextHead(w: nat, probe: Container -> Result)
    ensures var t, head := Unlines(OutputLines(Code(w), probe)), GeneratedBy + "\n" + BeginBanner + "\n" + "\n";
      |head| <= |t| && t[..|head|] == head
  {
    var pre, body, post := PrefixLines(Code(w)), Concat(Blocks(Code(w), probe)), SuffixLines(Code(w));
    assert pre + body + post == pre + (body + post);
    UnlinesHead(GeneratedBy, BeginBanner, body + post);
  }

  /** ... and ends with the END banner and a newline. */
  lemma CodeTextTail(w: nat, probe: Container -> Result)
    ensures var t, tail := Unlines(OutputLines(Code(w), probe)), EndBanner + "\n";
      |tail| <= |t| && t[|t| - |tail|..] == tail
  {
    var front := PrefixLines(Code(w)) + Concat(Blocks(Code(w), probe));
    assert OutputLines(Code(w), probe) == front + [EndBanner];
    UnlinesLast(front, EndBanner);
  }

  /** With the code serialiser there is exactly one `template <>` line,
      and so one specialisation, per measured pair. */
  lemma {:induction false} BlocksTemplateCount(w: nat, probe: Container -> Result, k: nat)
    requires k <= |Containers|
    ensures multiset(Concat(Blocks(Code(w), probe)[..k]))[Tab(w) + "template <>"] == Pairs(probe, k)
  {
    if k > 0 {
      var bs := Blocks(Code(w), probe);
      var r := probe(Containers[k - 1]);
      BlocksTemplateCount(w, probe, k - 1);
      ConcatSnoc(bs, k - 1);
      RecordTemplateCount(w, r);
    }
  }

  lemma CodeOutputTemplateCount(w: nat, probe: Container -> Result)
    ensures multiset(OutputLines(Code(w), probe))[Tab(w) + "template <>"] == Pairs(probe, |Containers|)
  {
    var s := Code(w);
    var bs := Blocks(s, probe);
    BlocksTemplateCount(w, probe, |Containers|);
    assert bs[..|Containers|] == bs;
    TemplateLineNotFrame(w);
    FramedCount(PrefixLines(s), Concat(bs), SuffixLines(s), Tab(w) + "template <>");
  }

  /** When no container name holds a newline, splitting the text at its
      newlines gives back exactly the output lines. */
  lemma OutputLinesRoundTrip(s: Serializer, probe: Container -> Result)
    requires forall c: Container :: NoNewline(probe(c).name)
    ensures SplitLines(Unlines(OutputLines(s, probe))) == OutputLines(s, probe)
  {
    var bs := Blocks(s, probe);
    forall k | 0 <= k < |bs| ensures NoNewlines(bs[k]) {
      RecordLinesNoNewline(s, probe(Containers[k]));
    }
    ConcatNoNewlines(bs);
    PrefixSuffixNoNewline(s);
    SplitUnlines(OutputLines(s, probe));
  }
}
