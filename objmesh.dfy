/** The OBJ mesh unpacker of pompiliu_test.js: `Shape_From_File.parse_into_mesh`
    reads the `v`, `vn`, `vt` and `f` statements of a Wavefront OBJ text,
    unpacks every distinct face token `v/vt/vn` once into per-vertex arrays,
    splits quads into two triangles, and fills the shape's arrays; `draw`
    does nothing until that has happened.  Coordinates are kept as the text
    they were read from. */
module ObjMesh {
  import opened ObjText

  // ----- lines -----

  /** The statement a trimmed line holds, by the four regular expressions
      tried in order: /^v\s/, /^vn\s/, /^vt\s/ and /^f\s/. */
  datatype Kind = VertexLine | NormalLine | TextureLine | FaceLine | OtherLine

  /** `/^kw\s/.test(line)` */
  predicate Keyed(line: string, kw: string)
  {
    |line| > |kw| && line[..|kw|] == kw && IsSpace(line[|kw|])
  }

  function Classify(line: string): Kind
  {
    if Keyed(line, "v") then VertexLine
    else if Keyed(line, "vn") then NormalLine
    else if Keyed(line, "vt") then TextureLine
    else if Keyed(line, "f") then FaceLine
    else OtherLine
  }

  function Keyword(k: Kind): string
  {
    match k
    case VertexLine => "v"
    case NormalLine => "vn"
    case TextureLine => "vt"
    case FaceLine => "f"
    case OtherLine => ""
  }

  /** `line.split(/\s+/)` followed by `shift()`. */
  function Elements(line: string): seq<string>
  {
    Words(line)[1..]
  }

  /** A classified line is its keyword, whitespace and the statement's
      arguments: the piece shift() removes is the keyword, and the elements
      are the whitespace-separated tokens after it, none of them empty. */
  lemma {:induction false} ClassifiedElements(raw: string)
    requires Classify(Trim(raw)) != OtherLine
    ensures var line := Trim(raw);
            var kw := Keyword(Classify(line));
            Words(line)[0] == kw
            && Elements(line) == Words(TrimStart(line[|kw| + 1..]))
            && forall i :: 0 <= i < |Elements(line)| ==> Elements(line)[i] != [] && NoSpace(Elements(line)[i])
  {
    ClassifiedLine(Trim(raw));
  }

  lemma {:induction false} ClassifiedLine(line: string)
    requires line == [] || (!IsSpace(line[0]) && !IsSpace(line[|line| - 1]))
    requires Classify(line) != OtherLine
    ensures var kw := Keyword(Classify(line));
            Words(line)[0] == kw
            && Elements(line) == Words(TrimStart(line[|kw| + 1..]))
            && forall i :: 0 <= i < |Elements(line)| ==> Elements(line)[i] != [] && NoSpace(Elements(line)[i])
  {
    var kw := Keyword(Classify(line));
    ClassifiedKeyed(line);
    WordsOfTrimmed(line);
    ElementsAreWords(line);
    KeyedWords(line, kw);
  }

  /** The elements are the pieces after the first. */
  lemma {:induction false} ElementsAreWords(line: string)
    requires forall i :: 0 <= i < |Words(line)| ==> Words(line)[i] != []
    ensures forall i :: 0 <= i < |Elements(line)| ==> Elements(line)[i] != [] && NoSpace(Elements(line)[i])
  {
    var w := Words(line);
    forall i | 0 <= i < |Elements(line)|
      ensures Elements(line)[i] != [] && NoSpace(Elements(line)[i])
    {
      assert Elements(line)[i] == w[i + 1];
    }
  }

  lemma ClassifiedKeyed(line: string)
    requires Classify(line) != OtherLine
    ensures var kw := Keyword(Classify(line)); Keyed(line, kw) && kw != [] && NoSpace(kw)
  {
  }

  lemma {:induction false} KeyedWords(line: string, kw: string)
    requires Keyed(line, kw) && kw != [] && NoSpace(kw)
    ensures Words(line)[0] == kw && Words(line)[1..] == Words(TrimStart(line[|kw| + 1..]))
  {
    assert line == kw + [line[|kw|]] + line[|kw| + 1..];
    WordsAfterKeyword(kw, line[|kw|], line[|kw| + 1..]);
  }

  // ----- slots -----

  /** A number `+x` the unpacker pushes, kept as the text x it was read from;
      Undefined is `+undefined`, NaN, read outside an array. */
  datatype Entry = Coord(text: string) | Undefined

  /** A computed array index: a whole number, or a value no array element
      is stored under (a number that is not whole, or NaN). */
  datatype Slot = Whole(n: int) | Nowhere

  /** `arr[slot]`: an entry only for a whole slot inside the array. */
  function At(arr: seq<string>, slot: Slot): Entry
  {
    if slot.Whole? && 0 <= slot.n < |arr| then Coord(arr[slot.n]) else Undefined
  }

  /** The parts of a token split at '/', each as `Number` reads it. */
  function Numbers(vertex: seq<string>): (ns: seq<Num>)
    ensures |ns| == |vertex|
  {
    seq(|vertex|, m requires 0 <= m < |vertex| => ToNumber(vertex[m]))
  }

  /** `vertex[i]` as a number: NaN when the part is missing. */
  function Part(ns: seq<Num>, i: nat): Num
  {
    if i < |ns| then ns[i] else NaN
  }

  /** `vertex = token.split('/')`, its parts as numbers. */
  function Vertex(tok: string): seq<Num>
  {
    Numbers(Split(tok, '/'))
  }

  /** `(x - 1) || vertex[0]`: the 0-based index x - 1 unless that is falsy
      (NaN or 0), and then vertex[0] as it stands, not made 0-based. */
  function OrFirst(x: Num, ns: seq<Num>): Num
  {
    match x
    case Int(v) => if v - 1 == 0 then Part(ns, 0) else Int(v - 1)
    case Half(w) => Half(w - 1)
    case Fraction => Fraction
    case NaN => Part(ns, 0)
  }

  /** `x * 3 + k`: whole only for a whole x, since three times a decimal
      that is not whole is not whole either. */
  function Times3(x: Num, k: int): Slot
  {
    if x.Int? then Whole(x.value * 3 + k) else Nowhere
  }

  /** `x * 2 + k`: whole for a whole x and for a whole number and a half. */
  function Times2(x: Num, k: int): Slot
  {
    match x
    case Int(v) => Whole(v * 2 + k)
    case Half(w) => Whole(w * 2 + 1 + k)
    case Fraction => Nowhere
    case NaN => Nowhere
  }

  /** `x - 1` */
  function Minus1(x: Num): Num
  {
    match x
    case Int(v) => Int(v - 1)
    case Half(w) => Half(w - 1)
    case Fraction => Fraction
    case NaN => NaN
  }

  /** `(vertex[0] - 1) * 3 + k` */
  function PositionSlot(ns: seq<Num>, k: int): Slot
  {
    Times3(Minus1(Part(ns, 0)), k)
  }

  /** `((vertex[1] - 1) || vertex[0]) * 2 + k` */
  function TextureSlot(ns: seq<Num>, k: int): Slot
  {
    Times2(OrFirst(Part(ns, 1), ns), k)
  }

  /** `((vertex[2] - 1) || vertex[0]) * 3 + k` */
  function NormalSlot(ns: seq<Num>, k: int): Slot
  {
    Times3(OrFirst(Part(ns, 2), ns), k)
  }

  /** A token i/j/k of decimal indices splits into its three indices, and
      Number reads each back. */
  lemma {:induction false} TokenNumbers(i: nat, j: nat, k: nat)
    ensures var parts := [NatText(i), NatText(j), NatText(k)];
            var ns := Numbers(parts);
            Split(Join(parts, '/'), '/') == parts
            && |ns| == 3 && ns[0] == Int(i) && ns[1] == Int(j) && ns[2] == Int(k)
  {
    TokenParts([NatText(i), NatText(j), NatText(k)]);
    TextsNumbers(i, j, k);
  }

  lemma {:induction false} TextsNumbers(i: nat, j: nat, k: nat)
    ensures var ns := Numbers([NatText(i), NatText(j), NatText(k)]);
            ns[0] == Int(i) && ns[1] == Int(j) && ns[2] == Int(k)
  {
    NumberOfText(i);
    NumberOfText(j);
    NumberOfText(k);
  }

  lemma {:induction false} TokenParts(parts: seq<string>)
    requires |parts| >= 1 && forall m :: 0 <= m < |parts| ==> IsDigits(parts[m])
    ensures Split(Join(parts, '/'), '/') == parts
  {
    forall m | 0 <= m < |parts| ensures '/' !in parts[m] {
      DigitsHaveNo(parts[m], '/');
    }
    SplitJoin(parts, '/');
  }

  /** A bare token i, without slashes, is a single part that reads as i. */
  lemma {:induction false} BareTokenNumbers(i: nat)
    ensures Split(NatText(i), '/') == [NatText(i)] && |Numbers([NatText(i)])| == 1 && Numbers([NatText(i)])[0] == Int(i)
  {
    DigitsHaveNo(NatText(i), '/');
    SplitPlain(NatText(i), '/');
    NumberOfText(i);
  }

  /** For the token i/j/k, component c of the position is read at
      (i - 1) * 3 + c, of the texture at (j - 1) * 2 + c and of the normal
      at (k - 1) * 3 + c; but a texture or normal index of 1 makes the
      0-based index 0, which is falsy, and the slot is computed from i
      itself: i * 2 + c and i * 3 + c. */
  lemma {:induction false} TokenSlots(ns: seq<Num>, i: int, j: int, k: int, c: int)
    requires |ns| == 3 && ns[0] == Int(i) && ns[1] == Int(j) && ns[2] == Int(k)
    ensures PositionSlot(ns, c) == Whole((i - 1) * 3 + c)
    ensures TextureSlot(ns, c) == Whole(if j == 1 then i * 2 + c else (j - 1) * 2 + c)
    ensures NormalSlot(ns, c) == Whole(if k == 1 then i * 3 + c else (k - 1) * 3 + c)
  {
  }

  /** For the bare token i, vertex[1] and vertex[2] are missing, so the
      0-based index is NaN and vertex[0] is used as it stands: the texture
      is read at i * 2 + c and the normal at i * 3 + c. */
  lemma {:induction false} BareTokenSlots(ns: seq<Num>, i: int, c: int)
    requires |ns| == 1 && ns[0] == Int(i)
    ensures PositionSlot(ns, c) == Whole((i - 1) * 3 + c)
    ensures TextureSlot(ns, c) == Whole(i * 2 + c)
    ensures NormalSlot(ns, c) == Whole(i * 3 + c)
  {
  }

  /** A position index that is not whole reads nothing, while a texture
      index of w and a half, made 0-based, doubles to the whole slot
      2w - 1 + c: the token i/w.5/k reads textures there. */
  lemma {:induction false} DecimalSlots(ns: seq<Num>, w: int, c: int)
    requires |ns| == 3 && ns[1] == Half(w)
    ensures !ns[0].Int? ==> PositionSlot(ns, c) == Nowhere
    ensures TextureSlot(ns, c) == Whole(2 * w - 1 + c)
  {
  }

  // ----- unpacking -----

  /** The vertex data read so far: the texts of the `v`, `vn` and `vt`
      statements, in order. */
  datatype Tables = Tables(verts: seq<string>, normals: seq<string>, textures: seq<string>)

  /** The `unpacked` object: the per-vertex arrays, the dictionary from face
      token to index, the index list and the running index. */
  datatype Unpacked = Unpacked(verts: seq<Entry>, norms: seq<Entry>, textures: seq<Entry>,
                               hashindices: map<string, nat>, indices: seq<nat>, index: nat)

  const Empty := Unpacked([], [], [], map[], [], 0)

  /** What holds of `unpacked` between tokens: three position and three
      normal entries per unpacked vertex and at most two texture entries;
      one dictionary entry per unpacked vertex, each holding an index below
      the running index; every emitted index below it. */
  predicate Consistent(u: Unpacked)
  {
    Sized(u) && Numbered(u.hashindices, u.index) && Below(u.indices, u.index)
  }

  predicate Sized(u: Unpacked)
  {
    |u.verts| == 3 * u.index && |u.norms| == 3 * u.index
    && |u.textures| % 2 == 0 && |u.textures| <= 2 * u.index
  }

  /** The dictionary holds n tokens, with indices below n. */
  predicate Numbered(m: map<string, nat>, n: nat)
  {
    |m| == n && forall tok :: tok in m ==> m[tok] < n
  }

  /** Distinct tokens hold distinct indices. */
  predicate Distinct(m: map<string, nat>)
  {
    forall a, b :: a in m && b in m && a != b ==> m[a] != m[b]
  }

  predicate Below(s: seq<nat>, n: nat)
  {
    forall i :: 0 <= i < |s| ==> s[i] < n
  }

  /** A new token numbered n keeps the numbering, and keeps distinct
      tokens apart. */
  lemma {:induction false} NumberedExtend(m: map<string, nat>, n: nat, tok: string)
    requires Numbered(m, n) && tok !in m
    ensures Numbered(m[tok := n], n + 1)
    ensures Distinct(m) ==> Distinct(m[tok := n])
  {
    var r := m[tok := n];
    assert |r| == n + 1;
    if Distinct(m) {
      forall a, b | a in r && b in r && a != b
        ensures r[a] != r[b]
      {
        if a != tok && b != tok {
          assert r[a] == m[a] && r[b] == m[b];
        }
      }
    }
  }

  /** One token of a face (pompiliu_test.js:119-140): a token already in the dictionary pushes its index;
      a new token is split at '/', its position, texture (only once some
      texture is known) and normal entries are pushed, and it takes the
      running index, which moves on by one. */
  function UnpackToken(u: Unpacked, t: Tables, tok: string): Unpacked
  {
    if tok in u.hashindices then u.(indices := u.indices + [u.hashindices[tok]])
    else
      u.(verts := u.verts + seq(3, c => At(t.verts, PositionSlot(Vertex(tok), c))),
         textures := if |t.textures| > 0 then u.textures + seq(2, c => At(t.textures, TextureSlot(Vertex(tok), c)))
                     else u.textures,
         norms := u.norms + seq(3, c => At(t.normals, NormalSlot(Vertex(tok), c))),
         hashindices := u.hashindices[tok := u.index],
         indices := u.indices + [u.index],
         index := u.index + 1)
  }

  /** A token is unpacked the first time it is seen and only then: a new
      token takes the running index, which grows by one, and adds three
      position, three normal and (when textures are known) two texture
      entries; a known token reuses its index and unpacks nothing.  Either
      way the token's index is emitted, no dictionary entry changes, and the
      invariant is kept. */
  lemma {:induction false} UnpackTokenLaws(u: Unpacked, t: Tables, tok: string)
    requires Consistent(u)
    ensures var r := UnpackToken(u, t, tok);
            Consistent(r)
            && r.hashindices.Keys == u.hashindices.Keys + {tok}
            && (forall k :: k in u.hashindices ==> r.hashindices[k] == u.hashindices[k])
            && r.indices == u.indices + [r.hashindices[tok]]
            && (tok in u.hashindices <==> r.index == u.index)
            && (tok in u.hashindices ==> r.verts == u.verts && r.norms == u.norms && r.textures == u.textures)
            && (tok !in u.hashindices ==>
                  r.hashindices[tok] == u.index && r.index == u.index + 1
                  && r.verts[..|u.verts|] == u.verts && r.norms[..|u.norms|] == u.norms
                  && r.textures[..|u.textures|] == u.textures
                  && |r.textures| == |u.textures| + (if |t.textures| > 0 then 2 else 0))
  {
    var r := UnpackToken(u, t, tok);
    if tok !in u.hashindices {
      NewTokenConsistent(u, r, tok);
    } else {
      assert r == u.(indices := u.indices + [u.hashindices[tok]]);
    }
  }

  /** Entering a new token under the running index, with its entries, keeps
      the invariant. */
  lemma {:induction false} NewTokenConsistent(u: Unpacked, r: Unpacked, tok: string)
    requires Consistent(u) && tok !in u.hashindices
    requires r.hashindices == u.hashindices[tok := u.index] && r.index == u.index + 1
    requires |r.verts| == |u.verts| + 3 && |r.norms| == |u.norms| + 3
    requires |r.textures| == |u.textures| || |r.textures| == |u.textures| + 2
    requires r.indices == u.indices + [u.index]
    ensures Consistent(r)
  {
    NumberedExtend(u.hashindices, u.index, tok);
    assert Below(r.indices, r.index) by {
      forall i | 0 <= i < |r.indices| ensures r.indices[i] < r.index {
        if i < |u.indices| {
          assert r.indices[i] == u.indices[i];
        }
      }
    }
  }

  /** Unpacking a token keeps distinct tokens apart. */
  lemma {:induction false} UnpackTokenDistinct(u: Unpacked, t: Tables, tok: string)
    requires Consistent(u) && Distinct(u.hashindices)
    ensures Distinct(UnpackToken(u, t, tok).hashindices)
  {
    if tok !in u.hashindices {
      NumberedExtend(u.hashindices, u.index, tok);
    }
  }

  /** What one token does to the dictionary and to the index list. */
  lemma UnpackTokenBook(u: Unpacked, t: Tables, tok: string)
    ensures var r := UnpackToken(u, t, tok);
            r.hashindices == (if tok in u.hashindices then u.hashindices else u.hashindices[tok := u.index])
            && r.indices == u.indices + [r.hashindices[tok]]
  {
  }

  /** The tokens of a sequence unpacked in order. */
  function UnpackAll(u: Unpacked, t: Tables, toks: seq<string>): Unpacked
    decreases |toks|
  {
    if toks == [] then u else UnpackToken(UnpackAll(u, t, toks[..|toks| - 1]), t, toks[|toks| - 1])
  }

  /** Unpacking a sequence of tokens enters exactly its tokens into the
      dictionary, never changes an entry, and emits, for each token in
      order, the index the dictionary holds for it at the end. */
  lemma {:induction false} UnpackAllLaws(u: Unpacked, t: Tables, toks: seq<string>)
    ensures var r := UnpackAll(u, t, toks);
            r.hashindices.Keys == u.hashindices.Keys + (set tok | tok in toks)
            && (forall k :: k in u.hashindices ==> r.hashindices[k] == u.hashindices[k])
            && |r.indices| == |u.indices| + |toks| && r.indices[..|u.indices|] == u.indices
            && (forall m :: 0 <= m < |toks| ==> r.indices[|u.indices| + m] == r.hashindices[toks[m]])
  {
    UnpackAllKeys(u, t, toks);
    UnpackAllIndices(u, t, toks);
  }

  lemma {:induction false} UnpackAllKeys(u: Unpacked, t: Tables, toks: seq<string>)
    ensures var r := UnpackAll(u, t, toks);
            r.hashindices.Keys == u.hashindices.Keys + (set tok | tok in toks)
            && (forall k :: k in u.hashindices ==> r.hashindices[k] == u.hashindices[k])
    decreases |toks|
  {
    if toks != [] {
      var front := toks[..|toks| - 1];
      var x := toks[|toks| - 1];
      UnpackAllKeys(u, t, front);
      UnpackTokenBook(UnpackAll(u, t, front), t, x);
      assert (set tok | tok in toks) == (set tok | tok in front) + {x} by {
        assert toks == front + [x];
      }
    }
  }

  lemma {:induction false} UnpackAllIndices(u: Unpacked, t: Tables, toks: seq<string>)
    ensures var r := UnpackAll(u, t, toks);
            |r.indices| == |u.indices| + |toks| && r.indices[..|u.indices|] == u.indices
            && (forall m :: 0 <= m < |toks| ==> toks[m] in r.hashindices && r.indices[|u.indices| + m] == r.hashindices[toks[m]])
    decreases |toks|
  {
    if toks != [] {
      var front := toks[..|toks| - 1];
      var x := toks[|toks| - 1];
      var p := UnpackAll(u, t, front);
      UnpackAllIndices(u, t, front);
      UnpackTokenBook(p, t, x);
      var r := UnpackToken(p, t, x);
      forall m | 0 <= m < |toks|
        ensures toks[m] in r.hashindices && r.indices[|u.indices| + m] == r.hashindices[toks[m]]
      {
        if m < |front| {
          assert toks[m] == front[m];
        }
      }
    }
  }

  lemma {:induction false} UnpackAllConsistent(u: Unpacked, t: Tables, toks: seq<string>)
    requires Consistent(u)
    ensures Consistent(UnpackAll(u, t, toks))
    decreases |toks|
  {
    if toks != [] {
      UnpackAllConsistent(u, t, toks[..|toks| - 1]);
      UnpackTokenLaws(UnpackAll(u, t, toks[..|toks| - 1]), t, toks[|toks| - 1]);
    }
  }

  lemma {:induction false} UnpackAllDistinct(u: Unpacked, t: Tables, toks: seq<string>)
    requires Consistent(u) && Distinct(u.hashindices)
    ensures Distinct(UnpackAll(u, t, toks).hashindices)
    decreases |toks|
  {
    if toks != [] {
      UnpackAllDistinct(u, t, toks[..|toks| - 1]);
      UnpackAllConsistent(u, t, toks[..|toks| - 1]);
      UnpackTokenDistinct(UnpackAll(u, t, toks[..|toks| - 1]), t, toks[|toks| - 1]);
    }
  }

  // ----- faces -----

  /** The order in which the face loop visits the tokens of an n-token face:
      0, 1, 2 for a triangle; from four tokens on, j is rewound once from 3
      to 2 and token 0 is emitted again after token 3, which turns the quad
      0 1 2 3 into the triangles 0 1 2 and 2 3 0, and the tokens from 4 on
      follow. */
  function FaceCorners(n: nat): (cs: seq<nat>)
    ensures forall m :: 0 <= m < |cs| ==> cs[m] < n
  {
    if n < 4 then seq(n, i => i) else [0, 1, 2, 2, 3, 0] + seq(n - 4, i => i + 4)
  }

  /** Where the face loop emits token i of an n-token face (the first time,
      for token 0 of a quad or larger face). */
  function FirstCorner(n: nat, i: nat): nat
  {
    if n >= 4 && i == 3 then 4 else if n >= 4 && i > 3 then i + 2 else i
  }

  /** A triangle emits its three tokens, a quad the six tokens of its two
      triangles, and an n-token face n + 2 indices that visit every token. */
  lemma {:induction false} FaceCornersLaws(n: nat)
    ensures var cs := FaceCorners(n);
            |cs| == (if n < 4 then n else n + 2)
            && (forall i :: 0 <= i < n ==> FirstCorner(n, i) < |cs| && cs[FirstCorner(n, i)] == i)
            && (n == 3 ==> cs == [0, 1, 2])
            && (n == 4 ==> cs == [0, 1, 2, 2, 3, 0])
  {
  }

  /** The tokens of a face in the order the face loop emits them. */
  function CornerTokens(elements: seq<string>): (toks: seq<string>)
    ensures |toks| == |FaceCorners(|elements|)|
    ensures forall m :: 0 <= m < |toks| ==> toks[m] == elements[FaceCorners(|elements|)[m]]
  {
    var cs := FaceCorners(|elements|);
    seq(|cs|, m requires 0 <= m < |cs| => elements[cs[m]])
  }

  /** The face branch (pompiliu_test.js:114-142): the tokens are unpacked in corner order. */
  function FaceStep(u: Unpacked, t: Tables, elements: seq<string>): Unpacked
  {
    UnpackAll(u, t, CornerTokens(elements))
  }

  /** A face enters all of its tokens into the dictionary, emits one index
      per corner (n for a triangle, n + 2 from a quad on), each the index of
      the token at that corner, and keeps the invariant. */
  lemma {:induction false} FaceStepLaws(u: Unpacked, t: Tables, elements: seq<string>)
    requires Consistent(u)
    ensures var r := FaceStep(u, t, elements);
            var cs := FaceCorners(|elements|);
            Consistent(r)
            && r.hashindices.Keys == u.hashindices.Keys + (set e | e in elements)
            && |r.indices| == |u.indices| + (if |elements| < 4 then |elements| else |elements| + 2)
            && r.indices[..|u.indices|] == u.indices
            && (forall m :: 0 <= m < |cs| ==> r.indices[|u.indices| + m] == r.hashindices[elements[cs[m]]])
  {
    var toks := CornerTokens(elements);
    UnpackAllLaws(u, t, toks);
    UnpackAllConsistent(u, t, toks);
    FaceCornersLaws(|elements|);
    CornerTokensCover(elements);
  }

  /** The face loop visits every token of the face, and no other. */
  lemma {:induction false} CornerTokensCover(elements: seq<string>)
    ensures (set tok | tok in CornerTokens(elements)) == (set e | e in elements)
  {
    var toks := CornerTokens(elements);
    FaceCornersLaws(|elements|);
    forall e | e in elements ensures e in toks {
      var i :| 0 <= i < |elements| && elements[i] == e;
      assert toks[FirstCorner(|elements|, i)] == e;
    }
  }

  /** The face loop of parse_into_mesh (pompiliu_test.js:115-142), with its rewind of j for quads. */
  method UnpackFace(u0: Unpacked, t: Tables, elements: seq<string>) returns (u: Unpacked)
    ensures u == FaceStep(u0, t, elements)
  {
    ghost var toks := CornerTokens(elements);
    ghost var done := 0;
    FaceCornersLaws(|elements|);
    u := u0;
    var quad := false;
    var j := 0;
    var eleLen := |elements|;
    while j < eleLen
      invariant 0 <= j <= eleLen
      invariant if quad then 3 <= j && eleLen >= 4 else j <= 3
      invariant done == (if !quad then j else if j == 3 then 4 else j + 2)
      invariant done <= |toks| && u == UnpackAll(u0, t, toks[..done])
      decreases if quad then 0 else 1, eleLen - j
    {
      if j == 3 && !quad {
        j := 2;
        quad := true;
      }
      CornerAt(elements, done);
      UnpackAllSnoc(u0, t, toks, done);
      u := UnpackToken(u, t, elements[j]);
      done := done + 1;
      if j == 3 && quad {
        CornerAt(elements, done);
        RepeatFirst(u0, t, toks, done);
        u := u.(indices := u.indices + [u.hashindices[elements[0]]]);
        done := done + 1;
      }
      j := j + 1;
    }
    assert toks[..done] == toks;
  }

  /** Which element the face loop unpacks m-th. */
  lemma {:induction false} CornerAt(elements: seq<string>, m: nat)
    requires m < |CornerTokens(elements)|
    ensures var n := |elements|;
            CornerTokens(elements)[m]
            == elements[if n < 4 || m < 3 then m else if m == 3 then 2 else if m == 4 then 3 else if m == 5 then 0 else m - 2]
  {
  }

  lemma {:induction false} UnpackAllSnoc(u: Unpacked, t: Tables, toks: seq<string>, n: nat)
    requires n < |toks|
    ensures UnpackAll(u, t, toks[..n + 1]) == UnpackToken(UnpackAll(u, t, toks[..n]), t, toks[n])
  {
    assert toks[..n + 1][..n] == toks[..n];
  }

  /** Unpacking the first token again only repeats its index. */
  lemma {:induction false} RepeatFirst(u: Unpacked, t: Tables, toks: seq<string>, n: nat)
    requires 0 < n < |toks| && toks[n] == toks[0]
    ensures var p := UnpackAll(u, t, toks[..n]);
            toks[0] in p.hashindices
            && UnpackAll(u, t, toks[..n + 1]) == p.(indices := p.indices + [p.hashindices[toks[0]]])
  {
    UnpackAllSnoc(u, t, toks, n);
    UnpackAllLaws(u, t, toks[..n]);
    assert toks[..n][0] == toks[0];
  }

  // ----- lines -----

  /** The state of the line loop: the tables read so far and `unpacked`. */
  datatype Reader = Reader(tables: Tables, unpacked: Unpacked)

  /** One turn of the line loop (pompiliu_test.js:107-143): the trimmed line's elements
      are appended to the table its keyword names, or unpacked as a face;
      any other line is skipped. */
  function ReadLine(r: Reader, raw: string): Reader
  {
    var line := Trim(raw);
    var elements := Elements(line);
    match Classify(line)
    case VertexLine => r.(tables := r.tables.(verts := r.tables.verts + elements))
    case NormalLine => r.(tables := r.tables.(normals := r.tables.normals + elements))
    case TextureLine => r.(tables := r.tables.(textures := r.tables.textures + elements))
    case FaceLine => r.(unpacked := FaceStep(r.unpacked, r.tables, elements))
    case OtherLine => r
  }

  /** The line loop over the given lines. */
  function ReadLines(lines: seq<string>): Reader
    decreases |lines|, 1
  {
    if lines == [] then Reader(Tables([], [], []), Empty) else ReadLast(lines)
  }

  /** The last turn of the line loop, after the turns for the lines before. */
  function ReadLast(lines: seq<string>): Reader
    requires lines != []
    decreases |lines|, 0
  {
    ReadLine(ReadLines(lines[..|lines| - 1]), lines[|lines| - 1])
  }

  /** The line loop over `data.split('\n')`. */
  function Read(data: string): Reader
  {
    ReadLines(Split(data, '\n'))
  }

  /** The tokens of a line, if it is a face line. */
  function LineTokens(raw: string): set<string>
  {
    var line := Trim(raw);
    if Classify(line) == FaceLine then set e | e in Elements(line) else {}
  }

  /** The tokens of the face lines. */
  function FaceTokens(lines: seq<string>): set<string>
    decreases |lines|
  {
    if lines == [] then {} else FaceTokens(lines[..|lines| - 1]) + LineTokens(lines[|lines| - 1])
  }

  /** One line keeps the invariant and enters its face tokens, if any. */
  lemma {:induction false} ReadLineKeeps(r: Reader, raw: string)
    requires Consistent(r.unpacked)
    ensures var u := ReadLine(r, raw).unpacked;
            Consistent(u) && u.hashindices.Keys == r.unpacked.hashindices.Keys + LineTokens(raw)
  {
    var line := Trim(raw);
    if Classify(line) == FaceLine {
      FaceStepLaws(r.unpacked, r.tables, Elements(line));
    }
  }

  /** One line keeps distinct tokens apart. */
  lemma {:induction false} ReadLineDistinct(r: Reader, raw: string)
    requires Consistent(r.unpacked) && Distinct(r.unpacked.hashindices)
    ensures Distinct(ReadLine(r, raw).unpacked.hashindices)
  {
    var line := Trim(raw);
    if Classify(line) == FaceLine {
      UnpackAllDistinct(r.unpacked, r.tables, CornerTokens(Elements(line)));
    }
  }

  /** After any prefix of the lines, `unpacked` is consistent, its
      dictionary holds exactly the face tokens seen, and the running index
      is their number: every distinct token has been unpacked once. */
  lemma {:induction false} ReadLinesLaws(lines: seq<string>)
    ensures var u := ReadLines(lines).unpacked;
            Consistent(u) && u.hashindices.Keys == FaceTokens(lines) && u.index == |FaceTokens(lines)|
    decreases |lines|
  {
    if lines != [] {
      var front := lines[..|lines| - 1];
      ReadLinesLaws(front);
      ReadLineKeeps(ReadLines(front), lines[|lines| - 1]);
      var u := ReadLines(lines).unpacked;
      assert |u.hashindices.Keys| == |u.hashindices|;
    }
  }

  /** Distinct face tokens are given distinct indices, so each names its own
      vertex. */
  lemma {:induction false} ReadLinesDistinct(lines: seq<string>)
    ensures Distinct(ReadLines(lines).unpacked.hashindices)
    decreases |lines|
  {
    if lines != [] {
      var front := lines[..|lines| - 1];
      ReadLinesDistinct(front);
      ReadLinesLaws(front);
      ReadLineDistinct(ReadLines(front), lines[|lines| - 1]);
    }
  }

  lemma {:induction false} ReadLinesSnoc(lines: seq<string>, i: nat)
    requires i < |lines|
    ensures ReadLines(lines[..i + 1]) == ReadLine(ReadLines(lines[..i]), lines[i])
  {
    assert lines[..i + 1][..i] == lines[..i];
  }

  /** The line loop of parse_into_mesh (pompiliu_test.js:106-144) over the lines of the file. */
  method Unpack(lines: seq<string>) returns (verts: seq<string>, vertNormals: seq<string>, textures: seq<string>, unpacked: Unpacked)
    ensures Reader(Tables(verts, vertNormals, textures), unpacked) == ReadLines(lines)
  {
    verts, vertNormals, textures, unpacked := [], [], [], Empty;
    for i := 0 to |lines|
      invariant Reader(Tables(verts, vertNormals, textures), unpacked) == ReadLines(lines[..i])
    {
      ReadLinesSnoc(lines, i);
      verts, vertNormals, textures, unpacked := UnpackLine(verts, vertNormals, textures, unpacked, lines[i]);
    }
    assert lines[..|lines|] == lines;
  }

  /** One turn of the line loop. */
  method UnpackLine(verts0: seq<string>, vertNormals0: seq<string>, textures0: seq<string>, unpacked0: Unpacked, raw: string)
    returns (verts: seq<string>, vertNormals: seq<string>, textures: seq<string>, unpacked: Unpacked)
    ensures Reader(Tables(verts, vertNormals, textures), unpacked)
            == ReadLine(Reader(Tables(verts0, vertNormals0, textures0), unpacked0), raw)
  {
    verts, vertNormals, textures, unpacked := verts0, vertNormals0, textures0, unpacked0;
    var line := Trim(raw);
    var elements := Words(line)[1..];
    if Keyed(line, "v") {
      verts := verts + elements;
    } else if Keyed(line, "vn") {
      vertNormals := vertNormals + elements;
    } else if Keyed(line, "vt") {
      textures := textures + elements;
    } else if Keyed(line, "f") {
      unpacked := UnpackFace(unpacked, Tables(verts, vertNormals, textures), elements);
    }
  }

  // ----- the shape -----

  datatype Triple = Triple(x: Entry, y: Entry, z: Entry)
  datatype Pair = Pair(s: Entry, t: Entry)

  function EntryAt(s: seq<Entry>, i: int): Entry
  {
    if 0 <= i < |s| then s[i] else Undefined
  }

  /** The number of turns of `for (j = 0; j < verts.length/3; j++)`. */
  function Rows(u: Unpacked): (n: nat)
    ensures |u.verts| <= 3 * n < |u.verts| + 3
  {
    (|u.verts| + 2) / 3
  }

  function Positions(u: Unpacked): seq<Triple>
  {
    seq(Rows(u), j => Triple(EntryAt(u.verts, 3 * j), EntryAt(u.verts, 3 * j + 1), EntryAt(u.verts, 3 * j + 2)))
  }

  function Normals(u: Unpacked): seq<Triple>
  {
    seq(Rows(u), j => Triple(EntryAt(u.norms, 3 * j), EntryAt(u.norms, 3 * j + 1), EntryAt(u.norms, 3 * j + 2)))
  }

  function TexCoords(u: Unpacked): seq<Pair>
  {
    seq(Rows(u), j => Pair(EntryAt(u.textures, 2 * j), EntryAt(u.textures, 2 * j + 1)))
  }

  /** The arrays parse_into_mesh adds: one position, one normal and one
      texture coordinate per distinct face token, position and normal j
      being the three entries unpacked for the j-th token, and every index
      of the index list naming one of them. */
  lemma {:induction false} MeshShape(data: string)
    ensures var u := Read(data).unpacked;
            |Positions(u)| == |Normals(u)| == |TexCoords(u)| == u.index == |u.hashindices|
            && (forall j :: 0 <= j < u.index ==>
                  3 * j + 2 < |u.verts| && 3 * j + 2 < |u.norms|
                  && Positions(u)[j] == Triple(u.verts[3 * j], u.verts[3 * j + 1], u.verts[3 * j + 2])
                  && Normals(u)[j] == Triple(u.norms[3 * j], u.norms[3 * j + 1], u.norms[3 * j + 2]))
            && (forall i :: 0 <= i < |u.indices| ==> u.indices[i] < |Positions(u)|)
  {
    ReadLinesLaws(Split(data, '\n'));
    MeshOf(Read(data).unpacked);
  }

  lemma {:induction false} MeshOf(u: Unpacked)
    requires Consistent(u)
    ensures |Positions(u)| == |Normals(u)| == |TexCoords(u)| == u.index == |u.hashindices|
    ensures forall j :: 0 <= j < u.index ==>
              3 * j + 2 < |u.verts| && 3 * j + 2 < |u.norms|
              && Positions(u)[j] == Triple(u.verts[3 * j], u.verts[3 * j + 1], u.verts[3 * j + 2])
              && Normals(u)[j] == Triple(u.norms[3 * j], u.norms[3 * j + 1], u.norms[3 * j + 2])
    ensures forall i :: 0 <= i < |u.indices| ==> u.indices[i] < |Positions(u)|
  {
    RowsOfIndex(u.index);
  }

  lemma {:induction false} RowsOfIndex(n: nat)
    ensures (3 * n + 2) / 3 == n
  {
  }

  /** Shape_From_File with the arrays parse_into_mesh fills. */
  class ShapeFromFile {
    var position: seq<Triple>
    var normal: seq<Triple>
    var textureCoord: seq<Pair>
    var indices: seq<nat>
    var ready: bool

    /** The shape while its file loads: empty arrays, not ready. */
    constructor ()
      ensures position == [] && normal == [] && textureCoord == [] && indices == [] && !ready
    {
      position, normal, textureCoord, indices, ready := [], [], [], [], false;
    }

    /** parse_into_mesh(data): the lines of data are read, the shape's
        arrays are filled from `unpacked`, the positions are rescaled by
        the toolkit's normalize_positions, given here as `normalize`, and
        the shape is ready. */
    method ParseIntoMesh(data: string, normalize: seq<Triple> -> seq<Triple>)
      modifies this
      ensures ready
      ensures var u := Read(data).unpacked;
              position == normalize(old(position) + Positions(u)) && normal == old(normal) + Normals(u)
              && textureCoord == old(textureCoord) + TexCoords(u) && indices == u.indices
    {
      var lines := Split(data, '\n');
      var verts, vertNormals, textures, unpacked := Unpack(lines);
      FillArrays(unpacked);
      position := normalize(position);
      ready := true;
    }

    /** The array loop of parse_into_mesh (pompiliu_test.js:145-153): one position, normal and texture
        coordinate per three unpacked position entries, then the index list. */
    method FillArrays(unpacked: Unpacked)
      modifies this
      ensures position == old(position) + Positions(unpacked) && normal == old(normal) + Normals(unpacked)
      ensures textureCoord == old(textureCoord) + TexCoords(unpacked) && indices == unpacked.indices
      ensures ready == old(ready)
    {
      var j := 0;
      while 3 * j < |unpacked.verts|
        invariant 3 * j <= |unpacked.verts| + 2
        invariant position == old(position) + Positions(unpacked)[..j]
        invariant normal == old(normal) + Normals(unpacked)[..j]
        invariant textureCoord == old(textureCoord) + TexCoords(unpacked)[..j]
        invariant ready == old(ready)
        decreases |unpacked.verts| - 3 * j
      {
        position := position + [Triple(EntryAt(unpacked.verts, 3 * j), EntryAt(unpacked.verts, 3 * j + 1),
                                       EntryAt(unpacked.verts, 3 * j + 2))];
        normal := normal + [Triple(EntryAt(unpacked.norms, 3 * j), EntryAt(unpacked.norms, 3 * j + 1),
                                   EntryAt(unpacked.norms, 3 * j + 2))];
        textureCoord := textureCoord + [Pair(EntryAt(unpacked.textures, 2 * j), EntryAt(unpacked.textures, 2 * j + 1))];
        assert Positions(unpacked)[..j + 1] == Positions(unpacked)[..j] + [Positions(unpacked)[j]];
        assert Normals(unpacked)[..j + 1] == Normals(unpacked)[..j] + [Normals(unpacked)[j]];
        assert TexCoords(unpacked)[..j + 1] == TexCoords(unpacked)[..j] + [TexCoords(unpacked)[j]];
        j := j + 1;
      }
      assert Positions(unpacked)[..j] == Positions(unpacked);
      assert Normals(unpacked)[..j] == Normals(unpacked);
      assert TexCoords(unpacked)[..j] == TexCoords(unpacked);
      indices := unpacked.indices;
    }

    /** draw: the shape is drawn exactly when ready is set. */
    method Draw() returns (drawn: bool)
      ensures drawn == ready
    {
      drawn := false;
      if ready {
        drawn := true;
      }
    }
  }
}
