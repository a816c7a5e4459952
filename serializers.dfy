/** The three serialisers of the node size debugger. Each one renders a
    measurement record as a block of lines, and writes its `prefix` and
    `suffix` lines; module Driver runs them over the containers. The output stream is a string that every
    emitting method extends and returns. */
module Serializers {
  import opened Text

  const ExeName: string := "foonathan_memory_node_size_debugger"

  /** One measurement: the container's name and, per alignment in
      ascending order, the pair (alignment, base node size). */
  datatype Result = Result(name: string, sizes: seq<(nat, nat)>)

  /** The serialiser variants; the code serialiser carries its tab width. */
  datatype Serializer = Simple | Verbose | Code(tabWidth: nat)

  // ---------------------------------------------------------------------
  // simple_serializer

  function SimpleEntry(p: (nat, nat)): string {
    "\t" + NatToString(p.0) + "=" + NatToString(p.1)
  }

  /** One line per pair, in the order of the pairs. */
  function SimpleEntries(ps: seq<(nat, nat)>): (ls: seq<string>)
    ensures |ls| == |ps|
    ensures forall i :: 0 <= i < |ps| ==> ls[i] == SimpleEntry(ps[i])
  {
    if ps == [] then [] else SimpleEntries(ps[..|ps| - 1]) + [SimpleEntry(ps[|ps| - 1])]
  }

  function SimpleLines(r: Result): seq<string> {
    [r.name + ":"] + SimpleEntries(r.sizes)
  }

  /** `simple_serializer::operator()`: the header line, then one line
      `\t<alignment>=<size>` per pair. */
  method EmitSimple(out: string, r: Result) returns (o: string)
    ensures o == out + Unlines(SimpleLines(r))
  {
    ghost var lines := [r.name + ":"];
    AppendLine(out, [], r.name + ":");
    o := out + r.name + ":" + "\n";
    for i := 0 to |r.sizes|
      invariant lines == [r.name + ":"] + SimpleEntries(r.sizes[..i])
      invariant o == out + Unlines(lines)
    {
      var (a, s) := r.sizes[i];
      var line := "\t" + NatToString(a) + "=" + NatToString(s);
      AppendLine(out, lines, line);
      o := o + line + "\n";
      lines := lines + [line];
      assert r.sizes[..i + 1][..i] == r.sizes[..i];
    }
    assert r.sizes[..|r.sizes|] == r.sizes;
  }

  /** The simple block has one header line and one line per pair, and the
      lines of its text are exactly these when the name has no newline. */
  lemma SimpleShape(r: Result)
    ensures |SimpleLines(r)| == 1 + |r.sizes|
    ensures SimpleLines(r)[0] == r.name + ":"
    ensures forall i :: 0 <= i < |r.sizes| ==>
      SimpleLines(r)[i + 1] == "\t" + NatToString(r.sizes[i].0) + "=" + NatToString(r.sizes[i].1)
    ensures NoNewline(r.name) ==> SplitLines(Unlines(SimpleLines(r))) == SimpleLines(r)
  {
    if NoNewline(r.name) {
      SimpleLinesNoNewline(r);
      SplitUnlines(SimpleLines(r));
    }
  }

  lemma SimpleLinesNoNewline(r: Result)
    requires NoNewline(r.name)
    ensures NoNewlines(SimpleLines(r))
  {
    var ls := SimpleLines(r);
    forall i | 0 <= i < |ls| ensures NoNewline(ls[i]) {
      if i > 0 {
        var p := r.sizes[i - 1];
        assert ls[i] == "\t" + NatToString(p.0) + "=" + NatToString(p.1);
      }
    }
  }

  // ---------------------------------------------------------------------
  // verbose_serializer

  /** A number as `std::setw(2)` prints it. */
  function SetW2(n: nat): (s: string) {
    PadLeft(NatToString(n), 2)
  }

  /** One leading space exactly for single-digit numbers; longer numbers
      are printed unchanged. */
  lemma SetW2Cases(n: nat)
    ensures n < 10 ==> SetW2(n) == " " + NatToString(n)
    ensures n >= 10 ==> SetW2(n) == NatToString(n)
    ensures |SetW2(n)| >= 2 && NoNewline(SetW2(n))
  {
    var d := NatToString(n);
    if n < 10 {
      assert SetW2(n) == Spaces(1) + d;
      assert Spaces(1) == " ";
    }
  }

  function VerboseEntry(p: (nat, nat)): string {
    "\tWith an alignment of " + SetW2(p.0) + " is the base node size " + SetW2(p.1) + "."
  }

  function VerboseEntries(ps: seq<(nat, nat)>): (ls: seq<string>)
    ensures |ls| == |ps|
    ensures forall i :: 0 <= i < |ps| ==> ls[i] == VerboseEntry(ps[i])
  {
    if ps == [] then [] else VerboseEntries(ps[..|ps| - 1]) + [VerboseEntry(ps[|ps| - 1])]
  }

  lemma VerboseEntriesSnoc(ps: seq<(nat, nat)>, i: nat)
    requires i < |ps|
    ensures VerboseEntries(ps[..i + 1]) == VerboseEntries(ps[..i]) + [VerboseEntry(ps[i])]
  {
    assert ps[..i + 1][..i] == ps[..i];
  }

  function VerboseLines(r: Result): seq<string> {
    ["For container '" + r.name + "':"] + VerboseEntries(r.sizes)
  }

  /** `verbose_serializer::operator()`. */
  method EmitVerbose(out: string, r: Result) returns (o: string)
    ensures o == out + Unlines(VerboseLines(r))
  {
    var header := "For container '" + r.name + "':";
    ghost var lines := [header];
    AppendLine(out, [], header);
    o := out + header + "\n";
    for i := 0 to |r.sizes|
      invariant lines == [header] + VerboseEntries(r.sizes[..i])
      invariant o == out + Unlines(lines)
    {
      var (a, s) := r.sizes[i];
      var line := "\tWith an alignment of " + SetW2(a) + " is the base node size " + SetW2(s) + ".";
      ghost var before := lines;
      o := o + line + "\n";
      lines := lines + [line];
      assert o == out + Unlines(lines) by { AppendLine(out, before, line); }
      assert lines == [header] + VerboseEntries(r.sizes[..i + 1]) by { VerboseEntriesSnoc(r.sizes, i); }
    }
    assert r.sizes[..|r.sizes|] == r.sizes;
  }

  /** The verbose block has one header line naming the container and one
      line per pair with both numbers right-aligned to width 2. */
  lemma VerboseShape(r: Result)
    ensures |VerboseLines(r)| == 1 + |r.sizes|
    ensures VerboseLines(r)[0] == "For container '" + r.name + "':"
    ensures forall i :: 0 <= i < |r.sizes| ==>
      VerboseLines(r)[i + 1] == "\tWith an alignment of " + SetW2(r.sizes[i].0)
        + " is the base node size " + SetW2(r.sizes[i].1) + "."
    ensures NoNewline(r.name) ==> SplitLines(Unlines(VerboseLines(r))) == VerboseLines(r)
  {
    if NoNewline(r.name) {
      VerboseLinesNoNewline(r);
      SplitUnlines(VerboseLines(r));
    }
  }

  lemma VerboseLinesNoNewline(r: Result)
    requires NoNewline(r.name)
    ensures NoNewlines(VerboseLines(r))
  {
    var ls := VerboseLines(r);
    NoNewlineByIndex("For container '");
    NoNewlineByIndex("':");
    assert ls[0] == "For container '" + r.name + "':";
    forall i | 0 < i < |ls| ensures NoNewline(ls[i]) {
      VerboseEntryNoNewline(r.sizes[i - 1]);
    }
  }

  lemma VerboseEntryNoNewline(p: (nat, nat))
    ensures NoNewline(VerboseEntry(p))
  {
    SetW2Cases(p.0);
    SetW2Cases(p.1);
    NoNewlineByIndex("\tWith an alignment of ");
    NoNewlineByIndex(" is the base node size ");
    NoNewlineByIndex(".");
  }

  // ---------------------------------------------------------------------
  // code_serializer

  /** `code_serializer::tab()`: one tab character for width 0, otherwise
      `tabWidth` spaces. */
  function Tab(tabWidth: nat): string {
    if tabWidth == 0 then "\t" else Spaces(tabWidth)
  }

  /** One tab character exactly when the width is 0, otherwise exactly
      `tabWidth` spaces; never empty, never a newline, never `/`. */
  lemma TabShape(tabWidth: nat)
    ensures var t := Tab(tabWidth);
      && (t == "\t" <==> tabWidth == 0)
      && (tabWidth != 0 ==> |t| == tabWidth && forall i :: 0 <= i < |t| ==> t[i] == ' ')
      && |t| > 0 && (t[0] == '\t' || t[0] == ' ') && NoNewline(t)
  {
    var t := Tab(tabWidth);
    if tabWidth != 0 {
      assert t[0] == ' ';
      assert t != "\t";
    }
  }

  /** `code_serializer::struct_name()`. */
  function StructName(name: string): string {
    name + "_node_size"
  }

  /** The generated identifier is the container name followed by
      `_node_size`, so distinct container names give distinct identifiers. */
  lemma StructNameInjective(a: string, b: string)
    ensures StructName(a)[..|a|] == a && StructName(a)[|a|..] == "_node_size"
    ensures StructName(a) == StructName(b) <==> a == b
  {
    if StructName(a) == StructName(b) {
      assert |a| == |b|;
      assert a == StructName(a)[..|a|] == StructName(b)[..|b|] == b;
    }
  }

  /** `code_serializer::alignment()`. */
  const AlignmentExpr: string := "FOONATHAN_ALIGNOF(T)"

  function CodeHeader(tab: string, name: string): seq<string> {
    [ "namespace detail",
      "{",
      tab + "template <std::size_t Alignment>",
      tab + "struct " + StructName(name) + ";" ]
  }

  /** The full specialisation binding one alignment to its base node size;
      it starts with an empty line. */
  function Specialisation(tab: string, name: string, p: (nat, nat)): seq<string> {
    [ "",
      tab + "template <>",
      tab + "struct " + StructName(name) + "<" + NatToString(p.0) + ">",
      tab + ": std::integral_constant<std::size_t, " + NatToString(p.1) + ">",
      tab + "{};" ]
  }

  /** One five-line specialisation per pair, in the order of the pairs. */
  function Specialisations(tab: string, name: string, ps: seq<(nat, nat)>): seq<string> {
    if ps == [] then []
    else Specialisations(tab, name, ps[..|ps| - 1]) + Specialisation(tab, name, ps[|ps| - 1])
  }

  lemma SpecialisationsSnoc(tab: string, name: string, ps: seq<(nat, nat)>, i: nat)
    requires i < |ps|
    ensures Specialisations(tab, name, ps[..i + 1])
         == Specialisations(tab, name, ps[..i]) + Specialisation(tab, name, ps[i])
  {
    assert ps[..i + 1][..i] == ps[..i];
  }

  lemma {:induction false} SpecialisationsAt(tab: string, name: string, ps: seq<(nat, nat)>)
    ensures |Specialisations(tab, name, ps)| == 5 * |ps|
    ensures forall i :: 0 <= i < |ps| ==>
      Specialisations(tab, name, ps)[5 * i..5 * i + 5] == Specialisation(tab, name, ps[i])
  {
    if ps != [] {
      var front := Specialisations(tab, name, ps[..|ps| - 1]);
      var ls := Specialisations(tab, name, ps);
      SpecialisationsAt(tab, name, ps[..|ps| - 1]);
      assert forall i :: 0 <= i < |ps| - 1 ==> ls[5 * i..5 * i + 5] == front[5 * i..5 * i + 5];
    }
  }

  function CodeFooter(name: string): seq<string> {
    [ "} // namespace detail",
      "",
      "template <typename T>",
      "struct " + StructName(name),
      ": std::integral_constant<std::size_t,",
      "       detail::" + StructName(name) + "<" + AlignmentExpr + ">::value + sizeof(T)>",
      "{};",
      "" ]
  }

  function CodeLines(tabWidth: nat, r: Result): seq<string> {
    CodeHeader(Tab(tabWidth), r.name)
      + Specialisations(Tab(tabWidth), r.name, r.sizes)
      + CodeFooter(r.name)
  }

  /** The first statement of `code_serializer::operator()`: the opening of
      `namespace detail` and the forward declaration. */
  method WriteForwardDeclaration(out: string, tab: string, name: string) returns (o: string)
    ensures o == out + Unlines(CodeHeader(tab, name))
  {
    var newline := "\n";
    o := out + "namespace detail" + newline + "{" + newline
      + (tab + "template <std::size_t Alignment>") + newline
      + (tab + "struct " + StructName(name) + ";") + newline;
    WriteLines4(out, "namespace detail", "{", tab + "template <std::size_t Alignment>",
      tab + "struct " + StructName(name) + ";");
  }

  /** The statement in the loop of `code_serializer::operator()`: an empty
      line, then the full specialisation for one pair. */
  method WriteSpecialisation(out: string, tab: string, name: string, p: (nat, nat)) returns (o: string)
    ensures o == out + Unlines(Specialisation(tab, name, p))
  {
    var newline := "\n";
    o := out + "" + newline
      + (tab + "template <>") + newline
      + (tab + "struct " + StructName(name) + "<" + NatToString(p.0) + ">") + newline
      + (tab + ": std::integral_constant<std::size_t, " + NatToString(p.1) + ">") + newline
      + (tab + "{};") + newline;
    WriteLines5(out, "", tab + "template <>",
      tab + "struct " + StructName(name) + "<" + NatToString(p.0) + ">",
      tab + ": std::integral_constant<std::size_t, " + NatToString(p.1) + ">",
      tab + "{};");
  }

  /** The last statement of `code_serializer::operator()`: the closing of
      `namespace detail` and the generic template for any value type. */
  method WriteGenericTemplate(out: string, name: string) returns (o: string)
    ensures o == out + Unlines(CodeFooter(name))
  {
    var newline := "\n";
    o := out + "} // namespace detail" + newline + "" + newline
      + "template <typename T>" + newline
      + ("struct " + StructName(name)) + newline
      + ": std::integral_constant<std::size_t," + newline
      + ("       detail::" + StructName(name) + "<" + AlignmentExpr + ">::value + sizeof(T)>") + newline
      + "{};" + newline + "" + newline;
    WriteLines8(out, "} // namespace detail", "", "template <typename T>",
      "struct " + StructName(name), ": std::integral_constant<std::size_t,",
      "       detail::" + StructName(name) + "<" + AlignmentExpr + ">::value + sizeof(T)>",
      "{};", "");
  }

  /** `code_serializer::operator()`: the forward declaration, one
      specialisation per measured alignment, then the generic template. */
  method EmitCode(tabWidth: nat, out: string, r: Result) returns (o: string)
    ensures o == out + Unlines(CodeLines(tabWidth, r))
  {
    var tab := Tab(tabWidth);
    ghost var header := CodeHeader(tab, r.name);
    ghost var specs := Specialisations(tab, r.name, r.sizes);
    o := WriteForwardDeclaration(out, tab, r.name);
    o := WriteSpecialisations(o, tab, r.name, r.sizes);
    UnlinesAppend(header, specs);
    o := WriteGenericTemplate(o, r.name);
    UnlinesAppend(header + specs, CodeFooter(r.name));
  }

  /** The loop of `code_serializer::operator()` over the measured pairs. */
  method WriteSpecialisations(out: string, tab: string, name: string, ps: seq<(nat, nat)>)
    returns (o: string)
    ensures o == out + Unlines(Specialisations(tab, name, ps))
  {
    o := out;
    ghost var done: seq<string> := [];
    assert ps[..0] == [];
    for i := 0 to |ps|
      invariant done == Specialisations(tab, name, ps[..i])
      invariant o == out + Unlines(done)
    {
      ghost var spec := Specialisation(tab, name, ps[i]);
      o := WriteSpecialisation(o, tab, name, ps[i]);
      UnlinesAppend(done, spec);
      SpecialisationsSnoc(tab, name, ps, i);
      done := done + spec;
    }
    assert ps[..|ps|] == ps;
  }

  /** A line that ends with `<>`: the only such line of a code block is the
      `template <>` line that opens a specialisation. */
  predicate EndsWithAngles(l: string) {
    |l| >= 2 && l[|l| - 2] == '<' && l[|l| - 1] == '>'
  }

  lemma EndsWithAnglesConcat(a: string, b: string)
    requires |b| >= 2
    ensures EndsWithAngles(a + b) == EndsWithAngles(b)
  {}

  lemma NotAnglesLast(a: string, c: char)
    requires c != '>'
    ensures !EndsWithAngles(a + [c])
  {}

  lemma NotAnglesDigit(a: string, n: nat)
    ensures !EndsWithAngles(a + NatToString(n) + ">")
  {
    var d := NatToString(n);
    assert (a + d + ">")[|a + d + ">"| - 2] == d[|d| - 1];
  }

  lemma HeaderNoAngles(tab: string, name: string)
    ensures forall i :: 0 <= i < 4 ==> !EndsWithAngles(CodeHeader(tab, name)[i])
  {
    var h := CodeHeader(tab, name);
    EndsWithAnglesConcat(tab, "template <std::size_t Alignment>");
    NotAnglesLast(tab + "struct " + StructName(name), ';');
  }

  lemma FooterNoAngles(name: string)
    ensures forall i :: 0 <= i < 8 ==> !EndsWithAngles(CodeFooter(name)[i])
  {
    NotAnglesLast("struct " + name + "_node_siz", 'e');
    assert "struct " + StructName(name) == "struct " + name + "_node_siz" + "e";
    EndsWithAnglesConcat("       detail::" + StructName(name) + "<" + AlignmentExpr, ">::value + sizeof(T)>");
  }

  lemma SpecialisationCount(tab: string, name: string, p: (nat, nat))
    ensures multiset(Specialisation(tab, name, p))[tab + "template <>"] == 1
  {
    var ls := Specialisation(tab, name, p);
    var t := tab + "template <>";
    EndsWithAnglesConcat(tab, "template <>");
    NotAnglesDigit(tab + "struct " + StructName(name) + "<", p.0);
    NotAnglesDigit(tab + ": std::integral_constant<std::size_t, ", p.1);
    NotAnglesLast(tab + "{}", ';');
    assert ls == [""] + [t] + [ls[2], ls[3], ls[4]];
    assert t !in [ls[2], ls[3], ls[4]];
  }

  lemma {:induction false} SpecialisationsCount(tab: string, name: string, ps: seq<(nat, nat)>)
    ensures multiset(Specialisations(tab, name, ps))[tab + "template <>"] == |ps|
  {
    if ps != [] {
      SpecialisationsCount(tab, name, ps[..|ps| - 1]);
      SpecialisationCount(tab, name, ps[|ps| - 1]);
    }
  }

  /** The code block is the namespace opening and the forward declaration
      (4 lines), then the i-th specialisation at lines 4 + 5i to 8 + 5i
      naming the i-th alignment and base node size, then the closing and
      the generic template (8 lines). */
  lemma CodeLayout(tabWidth: nat, r: Result)
    ensures var ls := CodeLines(tabWidth, r);
      && |ls| == 12 + 5 * |r.sizes|
      && ls[..4] == CodeHeader(Tab(tabWidth), r.name)
      && ls[4 + 5 * |r.sizes|..] == CodeFooter(r.name)
      && forall i :: 0 <= i < |r.sizes| ==>
           ls[4 + 5 * i..9 + 5 * i] == Specialisation(Tab(tabWidth), r.name, r.sizes[i])
  {
    var tab := Tab(tabWidth);
    var h, b, f := CodeHeader(tab, r.name), Specialisations(tab, r.name, r.sizes), CodeFooter(r.name);
    var ls := CodeLines(tabWidth, r);
    SpecialisationsAt(tab, r.name, r.sizes);
    assert ls == h + b + f;
    forall i | 0 <= i < |r.sizes|
      ensures ls[4 + 5 * i..9 + 5 * i] == Specialisation(tab, r.name, r.sizes[i])
    {
      assert ls[4 + 5 * i..9 + 5 * i] == b[5 * i..5 * i + 5];
    }
  }

  /** Exactly one `template <>` line per pair: one specialisation per
      entry and no other. */
  lemma CodeTemplateCount(tabWidth: nat, r: Result)
    ensures multiset(CodeLines(tabWidth, r))[Tab(tabWidth) + "template <>"] == |r.sizes|
  {
    var tab := Tab(tabWidth);
    var t := tab + "template <>";
    var h, b, f := CodeHeader(tab, r.name), Specialisations(tab, r.name, r.sizes), CodeFooter(r.name);
    SpecialisationsCount(tab, r.name, r.sizes);
    EndsWithAnglesConcat(tab, "template <>");
    HeaderNoAngles(tab, r.name);
    FooterNoAngles(r.name);
    assert t !in h;
    assert t !in f;
    assert CodeLines(tabWidth, r) == h + b + f;
  }

  /** A line that is empty or does not start with `/`. */
  predicate NoSlashStart(l: string) {
    l == [] || l[0] != '/'
  }

  lemma {:induction false} SpecialisationsNoSlash(tab: string, name: string, ps: seq<(nat, nat)>)
    requires |tab| > 0 && tab[0] != '/'
    ensures forall l :: l in Specialisations(tab, name, ps) ==> NoSlashStart(l)
  {
    if ps != [] {
      SpecialisationsNoSlash(tab, name, ps[..|ps| - 1]);
      var sp := Specialisation(tab, name, ps[|ps| - 1]);
      assert forall l :: l in sp ==> NoSlashStart(l);
    }
  }

  /** No line of a code block starts with `/`, so the banners written by
      `prefix` and `suffix` never occur inside a block. */
  lemma CodeLinesNoSlash(tabWidth: nat, r: Result)
    ensures forall l :: l in CodeLines(tabWidth, r) ==> NoSlashStart(l)
  {
    var tab := Tab(tabWidth);
    TabShape(tabWidth);
    SpecialisationsNoSlash(tab, r.name, r.sizes);
    var h, f := CodeHeader(tab, r.name), CodeFooter(r.name);
    assert forall l :: l in h ==> NoSlashStart(l);
    assert forall l :: l in f ==> NoSlashStart(l);
    assert CodeLines(tabWidth, r) == h + Specialisations(tab, r.name, r.sizes) + f;
  }

  lemma {:induction false} SpecialisationsNoNewline(tab: string, name: string, ps: seq<(nat, nat)>)
    requires NoNewline(tab) && NoNewline(name)
    ensures NoNewlines(Specialisations(tab, name, ps))
  {
    if ps != [] {
      SpecialisationsNoNewline(tab, name, ps[..|ps| - 1]);
      SpecialisationNoNewline(tab, name, ps[|ps| - 1]);
      NoNewlinesAppend(Specialisations(tab, name, ps[..|ps| - 1]), Specialisation(tab, name, ps[|ps| - 1]));
    }
  }

  lemma SpecialisationNoNewline(tab: string, name: string, p: (nat, nat))
    requires NoNewline(tab) && NoNewline(name)
    ensures NoNewlines(Specialisation(tab, name, p))
  {
    var a, s := NatToString(p.0), NatToString(p.1);
    assert NoNewline(a) && NoNewline(s);
    NoNewlineByIndex("template <>");
    NoNewlineByIndex("struct ");
    NoNewlineByIndex(": std::integral_constant<std::size_t, ");
    NoNewlineByIndex("{};");
    assert NoNewline(StructName(name));
  }

  /** Every line of a code block is free of newlines when the container
      name is. */
  lemma CodeLinesNoNewline(tabWidth: nat, r: Result)
    requires NoNewline(r.name)
    ensures NoNewlines(CodeLines(tabWidth, r))
  {
    var tab := Tab(tabWidth);
    TabShape(tabWidth);
    SpecialisationsNoNewline(tab, r.name, r.sizes);
    HeaderNoNewline(tab, r.name);
    FooterNoNewline(r.name);
    assert CodeLines(tabWidth, r) == CodeHeader(tab, r.name) + Specialisations(tab, r.name, r.sizes)
      + CodeFooter(r.name);
  }

  lemma HeaderNoNewline(tab: string, name: string)
    requires NoNewline(tab) && NoNewline(name)
    ensures NoNewlines(CodeHeader(tab, name))
  {}

  lemma FooterNoNewline(name: string)
    requires NoNewline(name)
    ensures NoNewlines(CodeFooter(name))
  {
    FooterLiteralsNoNewline();
    var sn := StructName(name);
    assert NoNewline(sn);
    assert CodeFooter(name)[3] == "struct " + sn;
    assert CodeFooter(name)[5] == "       detail::" + sn + "<" + AlignmentExpr + ">::value + sizeof(T)>";
  }

  lemma FooterLiteralsNoNewline()
    ensures NoNewline("} // namespace detail") && NoNewline("template <typename T>")
    ensures NoNewline(": std::integral_constant<std::size_t,") && NoNewline("{};")
    ensures NoNewline("       detail::") && NoNewline(AlignmentExpr) && NoNewline(">::value + sizeof(T)>")
  {
    NoNewlineByIndex("} // namespace detail");
    NoNewlineByIndex("template <typename T>");
    NoNewlineByIndex(": std::integral_constant<std::size_t,");
    NoNewlineByIndex("{};");
    NoNewlineByIndex("       detail::");
    NoNewlineByIndex(AlignmentExpr);
    NoNewlineByIndex(">::value + sizeof(T)>");
  }

  // ---------------------------------------------------------------------
  // prefix, operator() and suffix of each serialiser

  /** The comment naming the tool: the comment marker, then the text. */
  const GeneratedBy: string := "//" + " The following section was autogenerated by " + ExeName
  const BeginBanner: string := "//=== BEGIN AUTOGENERATED SECTION ===//"
  const EndBanner: string := "//=== END AUTOGENERATED SECTION ===//"

  /** `prefix()`: nothing for the simple and verbose serialisers; for the
      code serialiser a comment naming the tool, the BEGIN banner and an
      empty line. */
  function PrefixLines(s: Serializer): seq<string> {
    if s.Code? then [GeneratedBy, BeginBanner, ""] else []
  }

  /** `suffix()`: nothing, or the END banner for the code serialiser. */
  function SuffixLines(s: Serializer): seq<string> {
    if s.Code? then [EndBanner] else []
  }

  /** `operator()` of each serialiser. */
  function RecordLines(s: Serializer, r: Result): seq<string> {
    match s
    case Simple => SimpleLines(r)
    case Verbose => VerboseLines(r)
    case Code(w) => CodeLines(w, r)
  }

  method WritePrefix(s: Serializer, out: string) returns (o: string)
    ensures o == out + Unlines(PrefixLines(s))
  {
    if s.Code? {
      o := out + GeneratedBy + "\n";
      o := o + BeginBanner + "\n" + "\n";
      WriteLines3(out, GeneratedBy, BeginBanner, "");
    } else {
      o := out;
    }
  }

  method WriteSuffix(s: Serializer, out: string) returns (o: string)
    ensures o == out + Unlines(SuffixLines(s))
  {
    if s.Code? {
      o := out + EndBanner + "\n";
      AppendLine(out, [], EndBanner);
    } else {
      o := out;
    }
  }

  method Emit(s: Serializer, out: string, r: Result) returns (o: string)
    ensures o == out + Unlines(RecordLines(s, r))
  {
    match s
    case Simple => o := EmitSimple(out, r);
    case Verbose => o := EmitVerbose(out, r);
    case Code(w) => o := EmitCode(w, out, r);
  }

  /** The three comment lines differ from each other and are not empty. */
  lemma BannersDistinct()
    ensures GeneratedBy != BeginBanner && GeneratedBy != EndBanner && BeginBanner != EndBanner
    ensures GeneratedBy != "" && BeginBanner != "" && EndBanner != ""
  {
    assert |GeneratedBy| == 81 && |BeginBanner| == 39 && |EndBanner| == 37;
  }

  /** Each banner is written once, by `prefix` or by `suffix`. */
  lemma BannerCounts(s: Serializer)
    requires s.Code?
    ensures multiset(PrefixLines(s))[BeginBanner] == 1 && multiset(SuffixLines(s))[BeginBanner] == 0
    ensures multiset(PrefixLines(s))[EndBanner] == 0 && multiset(SuffixLines(s))[EndBanner] == 1
  {
    BannersDistinct();
  }

  /** The `template <>` line of a specialisation is neither a banner nor
      the empty line. */
  lemma TemplateLineNotFrame(w: nat)
    ensures multiset(PrefixLines(Code(w)))[Tab(w) + "template <>"] == 0
    ensures multiset(SuffixLines(Code(w)))[Tab(w) + "template <>"] == 0
  {
    var t := Tab(w) + "template <>";
    TabShape(w);
    assert t[0] == '\t' || t[0] == ' ';
    assert GeneratedBy[0] == '/';
    assert BeginBanner[0] == '/';
    assert EndBanner[0] == '/';
  }

  lemma PrefixSuffixNoNewline(s: Serializer)
    ensures NoNewlines(PrefixLines(s)) && NoNewlines(SuffixLines(s))
  {
    GeneratedByNoNewline();
    BannersNoNewline();
  }

  lemma GeneratedByNoNewline()
    ensures NoNewline(GeneratedBy)
  {
    NoNewlineByIndex("//");
    NoNewlineByIndex(" The following section was autogenerated by ");
    NoNewlineByIndex(ExeName);
  }

  lemma BannersNoNewline()
    ensures NoNewline(BeginBanner) && NoNewline(EndBanner)
  {
    NoNewlineByIndex(BeginBanner);
    NoNewlineByIndex(EndBanner);
  }

  lemma RecordLinesNoNewline(s: Serializer, r: Result)
    requires NoNewline(r.name)
    ensures NoNewlines(RecordLines(s, r))
  {
    match s
    case Simple => SimpleLinesNoNewline(r);
    case Verbose => VerboseLinesNoNewline(r);
    case Code(w) => CodeLinesNoNewline(w, r);
  }

  /** Lines per record: a header and one line per pair for the simple and
      verbose forms; twelve lines and five per pair for the code form. */
  lemma RecordLinesCount(s: Serializer, r: Result)
    ensures |RecordLines(s, r)| == if s.Code? then 12 + 5 * |r.sizes| else 1 + |r.sizes|
  {
    match s
    case Simple => SimpleShape(r);
    case Verbose => VerboseShape(r);
    case Code(w) => CodeLayout(w, r);
  }

  /** One `template <>` line per pair in a record written by the code
      serialiser. */
  lemma RecordTemplateCount(w: nat, r: Result)
    ensures multiset(RecordLines(Code(w), r))[Tab(w) + "template <>"] == |r.sizes|
  {
    CodeTemplateCount(w, r);
  }

  /** No line of a record written by the code serialiser starts with `/`. */
  lemma RecordLinesNoSlash(w: nat, r: Result)
    ensures forall l :: l in RecordLines(Code(w), r) ==> NoSlashStart(l)
  {
    CodeLinesNoSlash(w, r);
  }
}

