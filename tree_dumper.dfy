/**
 * Two visitors of a Merkle-Patricia trie walk.  TreeDumper writes one line of text per
 * visited item, prefixed by a depth indent of '+' characters, a "STORAGE " marker inside
 * storage tries and the node's two-digit child index within its parent branch.
 * SizeCalculator adds up the byte lengths of the visited nodes and code.
 */
module TreeDumper {
  import opened Wrappers

  datatype Keccak = Keccak(bytes: seq<bv8>)

  /** The root of the empty trie: keccak256 of the RLP encoding of the empty string. */
  const EmptyTreeHash: Keccak := Keccak([
    0x56, 0xe8, 0x1f, 0x17, 0x1b, 0xcc, 0x55, 0xa6, 0xff, 0x83, 0x45, 0xe6, 0x92, 0xc0, 0xf8, 0x6e,
    0x5b, 0x48, 0xe0, 0x1b, 0x99, 0x6c, 0xad, 0xc0, 0x01, 0x62, 0x2f, 0xb5, 0xe3, 0x63, 0xb4, 0x21])

  /** Where the walk is: depth, whether inside a storage trie, and the index of the
      current node among its parent branch's children (absent at a root or below an
      extension). */
  datatype VisitContext = VisitContext(level: nat, isStorage: bool, branchChildIndex: Option<nat>)

  /** `AppendLine` terminates each line with the platform line end; "\n" here. */
  const NewLine: string := "\n"

  // ---------------------------------------------------------------------------
  // Decimal rendering of integers, as string interpolation does it

  function DigitChar(d: nat): (c: char)
    requires d < 10
    ensures '0' <= c <= '9'
  {
    "0123456789"[d]
  }

  function DigitValue(c: char): nat {
    if '0' <= c <= '9' then (c as int - '0' as int) as nat else 0
  }

  /** The shortest decimal rendering of n. */
  function Decimal(n: nat): (s: string)
    ensures |s| >= 1
    ensures forall i :: 0 <= i < |s| ==> '0' <= s[i] <= '9'
  {
    if n < 10 then [DigitChar(n)] else Decimal(n / 10) + [DigitChar(n % 10)]
  }

  /** Reads a string of decimal digits back as a number. */
  function ParseDecimal(s: string): nat {
    if s == [] then 0 else ParseDecimal(s[..|s| - 1]) * 10 + DigitValue(s[|s| - 1])
  }

  /** Decimal rendering is undone by parsing. */
  lemma {:induction false} ParseDecimalOfDecimal(n: nat)
    ensures ParseDecimal(Decimal(n)) == n
  {
    var s := Decimal(n);
    if n < 10 {
      assert s[..0] == [];
    } else {
      assert s[..|s| - 1] == Decimal(n / 10);
      ParseDecimalOfDecimal(n / 10);
    }
  }

  /** The "00" format: at least two digits, zero-padded on the left. */
  function TwoDigits(n: nat): string {
    if n < 10 then "0" + Decimal(n) else Decimal(n)
  }

  lemma TwoDigitsShape(n: nat)
    ensures n < 100 ==> |TwoDigits(n)| == 2
    ensures ParseDecimal(TwoDigits(n)) == n
  {
    ParseDecimalOfDecimal(n);
    if n < 10 {
      var s := TwoDigits(n);
      assert s[..|s| - 1] == "0";
      assert "0"[..0] == [];
    } else if n < 100 {
      assert Decimal(n / 10) == [DigitChar(n / 10)];
    }
  }

  // ---------------------------------------------------------------------------
  // The prefix grammar

  /** GetIndent: two '+' per level. */
  function Indent(level: nat): (s: string)
    ensures |s| == 2 * level
    ensures forall i :: 0 <= i < |s| ==> s[i] == '+'
  {
    seq(2 * level, _ => '+')
  }

  /** GetChildIndex: empty without an index, otherwise the index in at least two digits
      and a space. */
  function ChildIndex(context: VisitContext): (r: string)
    ensures context.branchChildIndex.None? ==> r == ""
    ensures context.branchChildIndex.Some? ==>
              r != [] && r[|r| - 1] == ' ' && ParseDecimal(r[..|r| - 1]) == context.branchChildIndex.value
    ensures context.branchChildIndex.Some? && context.branchChildIndex.value < 100 ==> |r| == 3
  {
    match context.branchChildIndex
    case None => ""
    case Some(i) =>
      TwoDigitsShape(i);
      assert (TwoDigits(i) + " ")[..|TwoDigits(i)|] == TwoDigits(i);
      TwoDigits(i) + " "
  }

  /** GetPrefix: two '+' per level, "STORAGE " inside storage tries, then the child index. */
  function Prefix(context: VisitContext): (r: string)
    ensures var n := 2 * context.level;
            var m := if context.isStorage then 8 else 0;
            && |r| == n + m + |ChildIndex(context)|
            && (forall i :: 0 <= i < n ==> r[i] == '+')
            && r[n..n + m] == (if context.isStorage then "STORAGE " else "")
            && r[n + m..] == ChildIndex(context)
  {
    var marker := if context.isStorage then "STORAGE " else "";
    var r := Indent(context.level) + marker + ChildIndex(context);
    assert r[2 * context.level..2 * context.level + |marker|] == marker;
    assert r[2 * context.level + |marker|..] == ChildIndex(context);
    r
  }

  /** The number of '+' characters a line starts with. */
  function LeadingPluses(s: string): nat {
    if s != [] && s[0] == '+' then 1 + LeadingPluses(s[1..]) else 0
  }

  lemma {:induction false} LeadingPlusesOfIndent(n: nat, rest: string)
    requires rest == [] || rest[0] != '+'
    ensures LeadingPluses(Indent(n) + rest) == 2 * n
  {
    if n > 0 {
      var s := Indent(n) + rest;
      assert s[0] == '+' && s[1] == '+';
      assert s[1..][1..] == Indent(n - 1) + rest;
      LeadingPlusesOfIndent(n - 1, rest);
    } else {
      assert Indent(n) + rest == rest;
    }
  }

  /** What follows the indent never starts with '+': the child index starts with a digit
      and every marker or keyword with a capital letter. */
  lemma ChildIndexStart(context: VisitContext, keyword: string)
    requires keyword != [] && keyword[0] != '+'
    ensures var s := ChildIndex(context) + keyword; s != [] && s[0] != '+'
  {
    match context.branchChildIndex
    case None =>
      assert ChildIndex(context) + keyword == keyword;
    case Some(i) =>
      assert TwoDigits(i) != [];
      assert (ChildIndex(context) + keyword)[0] == TwoDigits(i)[0];
  }

  // ---------------------------------------------------------------------------
  // The line each visit writes

  function HexOrEmpty(hex: seq<bv8> -> string, hashOrRlp: Option<seq<bv8>>): string {
    match hashOrRlp
    case None => ""
    case Some(bytes) => hex(bytes)
  }

  function TreeLine(rootHash: Keccak, context: VisitContext): string {
    if rootHash == EmptyTreeHash then "EMPTY TREEE"
    else if context.isStorage then "STORAGE TREE"
    else "STATE TREE"
  }

  function MissingNodeLine(keccakText: Keccak -> string, nodeHash: Keccak, context: VisitContext): string {
    Indent(context.level) + ChildIndex(context) + "MISSING " + keccakText(nodeHash)
  }

  function BranchLine(hex: seq<bv8> -> string, hashOrRlp: Option<seq<bv8>>, context: VisitContext): string {
    Prefix(context) + "BRANCH " + HexOrEmpty(hex, hashOrRlp)
  }

  function ExtensionLine(hex: seq<bv8> -> string, hashOrRlp: Option<seq<bv8>>, context: VisitContext): string {
    Prefix(context) + "EXTENSION " + HexOrEmpty(hex, hashOrRlp)
  }

  function LeafLine(hex: seq<bv8> -> string, hashOrRlp: Option<seq<bv8>>, context: VisitContext): string {
    Prefix(context) + (if context.isStorage then "LEAF " else "ACCOUNT ") + HexOrEmpty(hex, hashOrRlp)
  }

  function CodeLine(keccakText: Keccak -> string, codeHash: Keccak, code: seq<bv8>, context: VisitContext): string {
    Prefix(context) + "CODE " + keccakText(codeHash) + " LENGTH " + Decimal(|code|)
  }

  /** A line made of the indent, an optional marker, the child index and a keyword shows
      its depth in its leading '+' characters. */
  lemma LineShowsDepth(context: VisitContext, marker: string, keyword: string)
    requires marker == "" || marker == "STORAGE "
    requires keyword != [] && keyword[0] != '+'
    ensures LeadingPluses(Indent(context.level) + marker + ChildIndex(context) + keyword) == 2 * context.level
  {
    var rest := MarkedTail(context, marker, keyword);
    LeadingPlusesOfIndent(context.level, rest);
    Regroup(Indent(context.level), marker, ChildIndex(context), keyword);
  }

  lemma Regroup(a: string, b: string, c: string, d: string)
    ensures a + b + c + d == a + (b + (c + d))
  {
  }

  lemma RegroupUnmarked(a: string, c: string, m: string, k: string)
    ensures a + c + m + k == a + "" + c + (m + k)
  {
  }

  /** The part of a line after its indent; it never starts with '+'. */
  function MarkedTail(context: VisitContext, marker: string, keyword: string): (rest: string)
    requires marker == "" || marker == "STORAGE "
    requires keyword != [] && keyword[0] != '+'
    ensures rest == marker + (ChildIndex(context) + keyword)
    ensures rest != [] && rest[0] != '+'
  {
    ChildIndexStart(context, keyword);
    var tail := ChildIndex(context) + keyword;
    if marker == "" then
      assert marker + tail == tail;
      marker + tail
    else
      assert (marker + tail)[0] == 'S';
      marker + tail
  }

  /** A prefixed line shows its depth in its leading '+' characters. */
  lemma PrefixShowsDepth(context: VisitContext, keyword: string)
    requires keyword != [] && keyword[0] != '+'
    ensures LeadingPluses(Prefix(context) + keyword) == 2 * context.level
  {
    var marker := if context.isStorage then "STORAGE " else "";
    LineShowsDepth(context, marker, keyword);
    assert Prefix(context) + keyword == Indent(context.level) + marker + ChildIndex(context) + keyword;
  }

  // The depth of every node line can be read back from its leading '+' characters.

  lemma MissingNodeLineShowsDepth(keccakText: Keccak -> string, hash: Keccak, context: VisitContext)
    ensures LeadingPluses(MissingNodeLine(keccakText, hash, context)) == 2 * context.level
  {
    var missing := "MISSING " + keccakText(hash);
    LineShowsDepth(context, "", missing);
    RegroupUnmarked(Indent(context.level), ChildIndex(context), "MISSING ", keccakText(hash));
  }

  lemma BranchLineShowsDepth(hex: seq<bv8> -> string, hashOrRlp: Option<seq<bv8>>, context: VisitContext)
    ensures LeadingPluses(BranchLine(hex, hashOrRlp, context)) == 2 * context.level
  {
    var branch := "BRANCH " + HexOrEmpty(hex, hashOrRlp);
    PrefixShowsDepth(context, branch);
    assert BranchLine(hex, hashOrRlp, context) == Prefix(context) + branch;
  }

  lemma ExtensionLineShowsDepth(hex: seq<bv8> -> string, hashOrRlp: Option<seq<bv8>>, context: VisitContext)
    ensures LeadingPluses(ExtensionLine(hex, hashOrRlp, context)) == 2 * context.level
  {
    var extension := "EXTENSION " + HexOrEmpty(hex, hashOrRlp);
    PrefixShowsDepth(context, extension);
    assert ExtensionLine(hex, hashOrRlp, context) == Prefix(context) + extension;
  }

  lemma LeafLineShowsDepth(hex: seq<bv8> -> string, hashOrRlp: Option<seq<bv8>>, context: VisitContext)
    ensures LeadingPluses(LeafLine(hex, hashOrRlp, context)) == 2 * context.level
  {
    var word := if context.isStorage then "LEAF " else "ACCOUNT ";
    WordLineShowsDepth(context, word, HexOrEmpty(hex, hashOrRlp));
  }

  lemma WordLineShowsDepth(context: VisitContext, word: string, rest: string)
    requires word == "LEAF " || word == "ACCOUNT "
    ensures LeadingPluses(Prefix(context) + word + rest) == 2 * context.level
  {
    PrefixShowsDepth(context, word + rest);
    assert Prefix(context) + word + rest == Prefix(context) + (word + rest);
  }


  lemma CodeLineShowsDepth(keccakText: Keccak -> string, hash: Keccak, code: seq<bv8>, context: VisitContext)
    ensures LeadingPluses(CodeLine(keccakText, hash, code, context)) == 2 * context.level
  {
    var codeText := "CODE " + keccakText(hash) + " LENGTH " + Decimal(|code|);
    PrefixShowsDepth(context, codeText);
    assert CodeLine(keccakText, hash, code, context) == Prefix(context) + codeText;
  }

  // ---------------------------------------------------------------------------

  /** TreeDumper: its StringBuilder is `text`.  Hex rendering of byte arrays and the text of
      a Keccak hash are routines outside this model, given as functions. */
  class TreeDumper {
    var text: string
    const hex: seq<bv8> -> string
    const keccakText: Keccak -> string

    constructor (hex: seq<bv8> -> string, keccakText: Keccak -> string)
      ensures text == "" && this.hex == hex && this.keccakText == keccakText
    {
      text := "";
      this.hex := hex;
      this.keccakText := keccakText;
    }

    function ToString(): string
      reads this
    {
      text
    }

    method Reset()
      modifies this
      ensures text == ""
    {
      text := "";
    }

    method VisitTree(rootHash: Keccak, context: VisitContext)
      modifies this
      ensures text == old(text) + TreeLine(rootHash, context) + NewLine
    {
      if rootHash == EmptyTreeHash {
        text := text + "EMPTY TREEE" + NewLine;
      } else {
        text := text + (if context.isStorage then "STORAGE TREE" else "STATE TREE") + NewLine;
      }
    }

    method VisitMissingNode(nodeHash: Keccak, context: VisitContext)
      modifies this
      ensures text == old(text) + MissingNodeLine(keccakText, nodeHash, context) + NewLine
    {
      text := text + Indent(context.level) + ChildIndex(context) + "MISSING " + keccakText(nodeHash) + NewLine;
    }

    method VisitBranch(hashOrRlp: Option<seq<bv8>>, context: VisitContext)
      modifies this
      ensures text == old(text) + BranchLine(hex, hashOrRlp, context) + NewLine
    {
      text := text + Prefix(context) + "BRANCH " + HexOrEmpty(hex, hashOrRlp) + NewLine;
    }

    method VisitExtension(hashOrRlp: Option<seq<bv8>>, context: VisitContext)
      modifies this
      ensures text == old(text) + ExtensionLine(hex, hashOrRlp, context) + NewLine
    {
      text := text + Prefix(context) + "EXTENSION " + HexOrEmpty(hex, hashOrRlp) + NewLine;
    }

    method VisitLeaf(hashOrRlp: Option<seq<bv8>>, context: VisitContext)
      modifies this
      ensures text == old(text) + LeafLine(hex, hashOrRlp, context) + NewLine
    {
      var leafDescription := if context.isStorage then "LEAF " else "ACCOUNT ";
      text := text + Prefix(context) + leafDescription + HexOrEmpty(hex, hashOrRlp) + NewLine;
    }

    method VisitCode(codeHash: Keccak, code: seq<bv8>, context: VisitContext)
      modifies this
      ensures text == old(text) + CodeLine(keccakText, codeHash, code, context) + NewLine
    {
      text := text + Prefix(context) + "CODE " + keccakText(codeHash) + " LENGTH " + Decimal(|code|) + NewLine;
    }
  }

  /** SizeCalculator: the total byte length of the visited nodes and code. */
  class SizeCalculator {
    var size: nat

    constructor ()
      ensures size == 0
    {
      size := 0;
    }

    /** Size.ToString(): the decimal rendering, from which the size reads back. */
    function ToString(): (s: string)
      reads this
      ensures ParseDecimal(s) == size
    {
      ParseDecimalOfDecimal(size);
      Decimal(size)
    }

    method VisitTree(rootHash: Keccak, context: VisitContext)
      ensures size == old(size)
    {
    }

    method VisitMissingNode(nodeHash: Keccak, context: VisitContext)
      ensures size == old(size)
    {
    }

    method VisitBranch(hashOrRlp: seq<bv8>, context: VisitContext)
      modifies this
      ensures size == old(size) + |hashOrRlp|
    {
      size := size + |hashOrRlp|;
    }

    method VisitExtension(hashOrRlp: seq<bv8>, context: VisitContext)
      modifies this
      ensures size == old(size) + |hashOrRlp|
    {
      size := size + |hashOrRlp|;
    }

    method VisitLeaf(hashOrRlp: seq<bv8>, context: VisitContext)
      modifies this
      ensures size == old(size) + |hashOrRlp|
    {
      size := size + |hashOrRlp|;
    }

    method VisitCode(codeHash: Keccak, code: seq<bv8>, context: VisitContext)
      modifies this
      ensures size == old(size) + |code|
    {
      size := size + |code|;
    }
  }
}
