/** The import names of a Windows program file, read straight from its bytes. Every read may run past the end
    of the file, as a slice does. */
module PeImports {
  import opened Basics

  type Byte = b: nat | b < 256

  // ----- Reading bytes -----

  function Slice(data: seq<Byte>, at: nat, count: nat): (part: seq<Byte>)
    ensures |part| <= count
    ensures at + count <= |data| ==> part == data[at..at + count]
    ensures count > 0 ==> (part == [] <==> at >= |data|)
  {
    if at >= |data| then [] else if at + count <= |data| then data[at..at + count] else data[at..]
  }

  function Little(bytes: seq<Byte>): nat {
    if bytes == [] then 0 else bytes[0] + 256 * Little(bytes[1..])
  }

  function U16(data: seq<Byte>, at: nat): nat {
    Little(Slice(data, at, 2))
  }

  function U32(data: seq<Byte>, at: nat): nat {
    Little(Slice(data, at, 4))
  }

  const ZEROS: seq<Byte> := [0, 0, 0, 0, 0, 0, 0, 0, 0, 0, 0, 0, 0, 0, 0, 0, 0, 0, 0, 0]

  // ----- The parts of the file -----

  /** A section: where it is loaded, and where its bytes are in the file. */
  datatype Section = Section(virtualSize: nat, virtualAddress: nat, rawSize: nat, rawPointer: nat)

  function SectionAt(data: seq<Byte>, entry: nat): Section {
    Section(U32(data, entry + 8), U32(data, entry + 12), U32(data, entry + 16), U32(data, entry + 20))
  }

  /** What the headers say: the sections, and where the import table is loaded. */
  datatype Headers = Headers(sections: seq<Section>, importRva: nat)

  function Sections(data: seq<Byte>, at: nat, count: nat): (sections: seq<Section>)
    ensures |sections| == count
    ensures forall i :: 0 <= i < count ==> sections[i] == SectionAt(data, at + 40 * i)
  {
    seq(count, i requires 0 <= i < count => SectionAt(data, at + 40 * i))
  }

  /** None for anything that is not a PE image. */
  function ReadHeaders(data: seq<Byte>): Option<Headers> {
    if Slice(data, 0, 2) != [0x4D, 0x5A] || |data| < 0x40 then None
    else
      var header := U32(data, 0x3C);
      if Slice(data, header, 4) != [0x50, 0x45, 0, 0] then None
      else
        var coff := header + 4;
        var optional := coff + 20;
        var directories := optional + (if U16(data, optional) == 0x20B then 112 else 96);
        Some(Headers(Sections(data, optional + U16(data, coff + 16), U16(data, coff + 2)), U32(data, directories + 8)))
  }

  function Max(a: nat, b: nat): nat {
    if a < b then b else a
  }

  /** The address falls in the section, whether in memory or in the file. */
  predicate Holds(section: Section, rva: nat) {
    section.virtualAddress <= rva < section.virtualAddress + Max(section.virtualSize, section.rawSize)
  }

  function OffsetIn(section: Section, rva: nat): nat
    requires Holds(section, rva)
  {
    section.rawPointer + rva - section.virtualAddress
  }

  /** Where a loaded address is in the file: by the first section that holds it. */
  function FileOffset(sections: seq<Section>, rva: nat): Option<nat> {
    if sections == [] then None
    else if Holds(sections[0], rva) then Some(OffsetIn(sections[0], rva))
    else FileOffset(sections[1..], rva)
  }

  method FindOffset(sections: seq<Section>, rva: nat) returns (offset: Option<nat>)
    ensures offset == FileOffset(sections, rva)
  {
    var index := 0;
    assert sections[0..] == sections;
    while index < |sections|
      invariant 0 <= index <= |sections|
      invariant FileOffset(sections[index..], rva) == FileOffset(sections, rva)
    {
      assert sections[index..][0] == sections[index] && sections[index..][1..] == sections[index + 1..];
      if Holds(sections[index], rva) {
        return Some(OffsetIn(sections[index], rva));
      }
      index := index + 1;
    }
    return None;
  }

  /** The place of the next zero byte. */
  function ZeroFrom(data: seq<Byte>, at: nat): (found: Option<nat>)
    ensures found.Some? ==> at <= found.value < |data| && data[found.value] == 0
    ensures found.Some? ==> forall i :: at <= i < found.value ==> data[i] != 0
    ensures found.None? ==> forall i :: at <= i < |data| ==> data[i] != 0
    decreases |data| - at
  {
    if at >= |data| then None else if data[at] == 0 then Some(at) else ZeroFrom(data, at + 1)
  }

  predicate Ascii(bytes: seq<Byte>) {
    forall i :: 0 <= i < |bytes| ==> bytes[i] < 128
  }

  function Text(bytes: seq<Byte>): (text: string)
    requires Ascii(bytes)
    ensures |text| == |bytes|
  {
    seq(|bytes|, i requires 0 <= i < |bytes| => bytes[i] as char)
  }

  /** The names, or why the file is rejected. */
  datatype Parsed = Names(names: seq<string>) | NoEndOfName | NotAscii

  function Named(name: string, rest: Parsed): Parsed {
    match rest
    case Names(names) => Names([name] + names)
    case _ => rest
  }

  /** The import table from one descriptor on. */
  function Walk(data: seq<Byte>, sections: seq<Section>, descriptor: nat): Parsed
    decreases |data| - descriptor
  {
    if Slice(data, descriptor, 20) in {[], ZEROS} then Names([])
    else
      match FileOffset(sections, U32(data, descriptor + 12))
      case None => Names([])
      case Some(nameAt) =>
        match ZeroFrom(data, nameAt)
        case None => NoEndOfName
        case Some(end) =>
          if !Ascii(data[nameAt..end]) then NotAscii
          else Named(Text(data[nameAt..end]), Walk(data, sections, descriptor + 20))
  }

  function Imports(data: seq<Byte>): Parsed {
    match ReadHeaders(data)
    case None => Names([])
    case Some(headers) =>
      if headers.importRva == 0 then Names([])
      else
        match FileOffset(headers.sections, headers.importRva)
        case None => Names([])
        case Some(descriptor) => Walk(data, headers.sections, descriptor)
  }

  function Joined(first: seq<string>, rest: Parsed): Parsed {
    match rest
    case Names(names) => Names(first + names)
    case _ => rest
  }

  /** On any bytes it ends, with the names so far or a rejection. */
  method ReadImports(data: seq<Byte>) returns (parsed: Parsed)
    ensures parsed == Imports(data)
  {
    hide ReadHeaders, FileOffset, Slice, Little, Text, Ascii, ZeroFrom;
    var read := ReadHeaders(data);
    if read.None? {
      return Names([]);
    }
    var sections, names := read.value.sections, [];
    var descriptor: Option<nat> := None;
    if read.value.importRva != 0 {
      descriptor := FindOffset(sections, read.value.importRva);
    }
    if descriptor.None? {
      return Names([]);
    }
    var at := descriptor.value;
    while Slice(data, at, 20) !in {[], ZEROS}
      invariant Imports(data) == Joined(names, Walk(data, sections, at))
      decreases |data| - at
    {
      var nameAt := FindOffset(sections, U32(data, at + 12));
      if nameAt.None? {
        break;
      }
      var end := ZeroFrom(data, nameAt.value);
      if end.None? {
        return NoEndOfName;
      }
      if !Ascii(data[nameAt.value..end.value]) {
        return NotAscii;
      }
      ghost var rest := Walk(data, sections, at + 20);
      var name := Text(data[nameAt.value..end.value]);
      if rest.Names? {
        assert names + ([name] + rest.names) == names + [name] + rest.names;
      }
      names := names + [name];
      at := at + 20;
    }
    assert names + [] == names;
    return Names(names);
  }

  // ----- Images as they are packed -----

  /** `value` in `width` bytes, the low one first. */
  function Packed(value: nat, width: nat): (bytes: seq<Byte>)
    ensures |bytes| == width
  {
    if width == 0 then [] else [value % 256] + Packed(value / 256, width - 1)
  }

  /** How many values `width` bytes can hold. */
  function Room(width: nat): nat {
    if width == 0 then 1 else 256 * Room(width - 1)
  }

  lemma {:induction false} PackedIsRead(value: nat, width: nat)
    requires value < Room(width)
    ensures Little(Packed(value, width)) == value
  {
    if width > 0 {
      PackedIsRead(value / 256, width - 1);
      assert Packed(value, width)[1..] == Packed(value / 256, width - 1);
    }
  }

  predicate At(data: seq<Byte>, at: nat, part: seq<Byte>) {
    at + |part| <= |data| && data[at..at + |part|] == part
  }

  lemma PartAt(data: seq<Byte>, at: nat, before: seq<Byte>, part: seq<Byte>, after: seq<Byte>)
    requires At(data, at, before + part + after)
    ensures At(data, at + |before|, part) && Slice(data, at + |before|, |part|) == part
  {
    var whole := before + part + after;
    var start := at + |before|;
    assert |whole| == |before| + |part| + |after|;
    forall i | 0 <= i < |part| ensures data[start..start + |part|][i] == part[i] {
      assert data[at..at + |whole|][|before| + i] == whole[|before| + i];
    }
    assert data[start..start + |part|] == part;
  }

  lemma NumberAt(data: seq<Byte>, at: nat, before: seq<Byte>, value: nat, width: nat, after: seq<Byte>)
    requires value < Room(width) && At(data, at, before + Packed(value, width) + after)
    ensures Little(Slice(data, at + |before|, width)) == value
  {
    PartAt(data, at, before, Packed(value, width), after);
    PackedIsRead(value, width);
  }

  /** A section's line in the table, with what the reader passes over on either side. */
  datatype Line = Line(name: seq<Byte>, section: Section, rest: seq<Byte>)

  predicate LineFits(line: Line) {
    && |line.name| == 8 && |line.rest| == 16
    && line.section.virtualSize < Room(4) && line.section.virtualAddress < Room(4)
    && line.section.rawSize < Room(4) && line.section.rawPointer < Room(4)
  }

  function LineBytes(line: Line): (bytes: seq<Byte>)
    ensures LineFits(line) ==> |bytes| == 40
  {
    line.name + Packed(line.section.virtualSize, 4) + Packed(line.section.virtualAddress, 4)
    + Packed(line.section.rawSize, 4) + Packed(line.section.rawPointer, 4) + line.rest
  }

  function TableBytes(lines: seq<Line>): seq<Byte> {
    if lines == [] then [] else LineBytes(lines[0]) + TableBytes(lines[1..])
  }

  /** The headers of an image, PE32+ if `wide`, and what they hold that the reader passes over. */
  datatype Image = Image(header: nat, machine: seq<Byte>, stamps: seq<Byte>, flags: seq<Byte>, wide: bool, magic: nat,
                         standard: seq<Byte>, exports: seq<Byte>, importRva: nat, more: seq<Byte>, lines: seq<Line>)

  predicate ImageFits(image: Image) {
    && |image.machine| == 2 && |image.stamps| == 12 && |image.flags| == 2 && |image.exports| == 8
    && (image.wide <==> image.magic == 0x20B) && |image.standard| == (if image.wide then 110 else 94)
    && image.header < Room(4) && image.magic < Room(2) && image.importRva < Room(4)
    && |image.lines| < Room(2) && |OptionalBytes(image)| < Room(2)
    && forall i :: 0 <= i < |image.lines| ==> LineFits(image.lines[i])
  }

  function OptionalBytes(image: Image): seq<Byte> {
    Packed(image.magic, 2) + image.standard + image.exports + Packed(image.importRva, 4) + image.more
  }

  const SIGNATURE: seq<Byte> := [0x50, 0x45, 0, 0]

  function HeaderBytes(image: Image): seq<Byte> {
    SIGNATURE + image.machine + Packed(|image.lines|, 2) + image.stamps + Packed(|OptionalBytes(image)|, 2)
    + image.flags + OptionalBytes(image) + TableBytes(image.lines)
  }

  /** The file starts as a program file, says where its PE header is, and has it there. */
  predicate IsImage(data: seq<Byte>, image: Image) {
    && ImageFits(image)
    && At(data, 0, [0x4D, 0x5A]) && At(data, 0x3C, Packed(image.header, 4))
    && At(data, image.header, HeaderBytes(image))
  }

  function HeadersOf(image: Image): Headers {
    Headers(seq(|image.lines|, i requires 0 <= i < |image.lines| => image.lines[i].section), image.importRva)
  }

  lemma LineIsRead(data: seq<Byte>, at: nat, line: Line)
    requires LineFits(line) && At(data, at, LineBytes(line))
    ensures SectionAt(data, at) == line.section
  {
    var s := line.section;
    var size, address, raw, place := Packed(s.virtualSize, 4), Packed(s.virtualAddress, 4), Packed(s.rawSize, 4),
                                     Packed(s.rawPointer, 4);
    hide Packed, Room, Little, At, Slice;
    assert LineBytes(line) == line.name + size + (address + raw + place + line.rest);
    NumberAt(data, at, line.name, s.virtualSize, 4, address + raw + place + line.rest);
    assert LineBytes(line) == (line.name + size) + address + (raw + place + line.rest);
    NumberAt(data, at, line.name + size, s.virtualAddress, 4, raw + place + line.rest);
    assert LineBytes(line) == (line.name + size + address) + raw + (place + line.rest);
    NumberAt(data, at, line.name + size + address, s.rawSize, 4, place + line.rest);
    NumberAt(data, at, line.name + size + address + raw, s.rawPointer, 4, line.rest);
  }

  lemma {:induction false} TableIsRead(data: seq<Byte>, at: nat, lines: seq<Line>, i: nat)
    requires At(data, at, TableBytes(lines)) && i < |lines| && forall k :: 0 <= k < |lines| ==> LineFits(lines[k])
    ensures SectionAt(data, at + 40 * i) == lines[i].section
    decreases i
  {
    hide SectionAt, LineBytes, Slice;
    var first, rest := LineBytes(lines[0]), TableBytes(lines[1..]);
    assert TableBytes(lines) == [] + first + rest && TableBytes(lines) == first + rest + [];
    assert |first| == 40 by {
      assert LineFits(lines[0]);
    }
    if i == 0 {
      PartAt(data, at, [], first, rest);
      LineIsRead(data, at, lines[0]);
    } else {
      PartAt(data, at, first, rest, []);
      TableIsRead(data, at + 40, lines[1..], i - 1);
      assert at + 40 + 40 * (i - 1) == at + 40 * i;
    }
  }

  /** Where the parts of the PE header are. */
  lemma HeaderParts(data: seq<Byte>, image: Image)
    requires ImageFits(image) && At(data, image.header, HeaderBytes(image))
    ensures var coff, optional := image.header + 4, OptionalBytes(image);
            && Slice(data, image.header, 4) == SIGNATURE
            && U16(data, coff + 2) == |image.lines| && U16(data, coff + 16) == |optional|
            && At(data, coff + 20, optional) && At(data, coff + 20 + |optional|, TableBytes(image.lines))
  {
    var optional, table := OptionalBytes(image), TableBytes(image.lines);
    hide Room, Little, At, Slice, OptionalBytes, TableBytes, LineFits;
    assert |image.machine| == 2 && |image.stamps| == 12 && |image.flags| == 2;
    HeaderPieces(data, image.header, image.machine, |image.lines|, image.stamps, |optional|, image.flags, optional,
                 table);
  }

  lemma HeaderPieces(data: seq<Byte>, at: nat, machine: seq<Byte>, count: nat, stamps: seq<Byte>, size: nat,
                     flags: seq<Byte>, optional: seq<Byte>, table: seq<Byte>)
    requires |machine| == 2 && |stamps| == 12 && |flags| == 2 && count < Room(2) && size < Room(2)
    requires At(data, at, SIGNATURE + machine + Packed(count, 2) + stamps + Packed(size, 2) + flags + optional + table)
    ensures Slice(data, at, 4) == SIGNATURE
    ensures U16(data, at + 6) == count && U16(data, at + 20) == size
    ensures At(data, at + 24, optional) && At(data, at + 24 + |optional|, table)
  {
    var counted, sized := Packed(count, 2), Packed(size, 2);
    hide Packed, Room, Little, At, Slice;
    var rest := stamps + sized + flags + optional + table;
    assert SIGNATURE + machine + counted + stamps + sized + flags + optional + table
        == SIGNATURE + machine + counted + rest;
    HeaderFront(data, at, machine, count, rest);
    HeaderTail(data, at, SIGNATURE + machine + counted + stamps, size, flags, optional, table);
  }

  lemma HeaderFront(data: seq<Byte>, at: nat, machine: seq<Byte>, count: nat, rest: seq<Byte>)
    requires |machine| == 2 && count < Room(2) && At(data, at, SIGNATURE + machine + Packed(count, 2) + rest)
    ensures Slice(data, at, 4) == SIGNATURE && U16(data, at + 6) == count
  {
    var counted := Packed(count, 2);
    hide Packed, Room, Little, At, Slice;
    assert |SIGNATURE| == 4;
    NumberAt(data, at, SIGNATURE + machine, count, 2, rest);
    assert SIGNATURE + machine + counted + rest == [] + SIGNATURE + (machine + counted + rest);
    PartAt(data, at, [], SIGNATURE, machine + counted + rest);
  }

  lemma HeaderTail(data: seq<Byte>, at: nat, front: seq<Byte>, size: nat, flags: seq<Byte>, optional: seq<Byte>,
                   table: seq<Byte>)
    requires |front| == 20 && |flags| == 2 && size < Room(2)
    requires At(data, at, front + Packed(size, 2) + flags + optional + table)
    ensures U16(data, at + 20) == size
    ensures At(data, at + 24, optional) && At(data, at + 24 + |optional|, table)
  {
    var sized := Packed(size, 2);
    hide Packed, Room, Little, At, Slice;
    var whole := front + sized + flags + optional + table;
    assert whole == front + sized + (flags + optional + table);
    NumberAt(data, at, front, size, 2, flags + optional + table);
    PartAt(data, at, front + sized + flags, optional, table);
    assert whole == (front + sized + flags + optional) + table + [];
    PartAt(data, at, front + sized + flags + optional, table, []);
  }

  lemma OptionalParts(data: seq<Byte>, at: nat, image: Image)
    requires ImageFits(image) && At(data, at, OptionalBytes(image))
    ensures U16(data, at) == image.magic
    ensures U32(data, at + (if image.wide then 112 else 96) + 8) == image.importRva
  {
    var magic, rva := Packed(image.magic, 2), Packed(image.importRva, 4);
    hide Packed, Room, Little, At, Slice, LineFits;
    assert OptionalBytes(image) == [] + magic + (image.standard + image.exports + rva + image.more);
    NumberAt(data, at, [], image.magic, 2, image.standard + image.exports + rva + image.more);
    NumberAt(data, at, magic + image.standard + image.exports, image.importRva, 4, image.more);
  }

  /** The headers of every image packed so are read as they are, PE32 and PE32+ alike. */
  lemma HeadersAreRead(data: seq<Byte>, image: Image)
    requires IsImage(data, image)
    ensures ReadHeaders(data) == Some(HeadersOf(image))
  {
    HeaderParts(data, image);
    var optional := image.header + 24;
    OptionalParts(data, optional, image);
    assert [] + [0x4D, 0x5A] + [] == [0x4D, 0x5A];
    PartAt(data, 0, [], [0x4D, 0x5A], []);
    assert [] + Packed(image.header, 4) + [] == Packed(image.header, 4);
    NumberAt(data, 0x3C, [], image.header, 4, []);
    var table := optional + |OptionalBytes(image)|;
    forall i | 0 <= i < |image.lines| ensures SectionAt(data, table + 40 * i) == image.lines[i].section {
      TableIsRead(data, table, image.lines, i);
    }
    hide Packed, Room, Little, OptionalBytes, TableBytes, HeaderBytes, LineFits, SectionAt;
    assert Sections(data, table, |image.lines|) == HeadersOf(image).sections;
  }

  /** A file that is no program file, or holds no PE signature where it says, has no imports. */
  lemma OthersHaveNoImports(data: seq<Byte>)
    requires |data| < 0x40 || !At(data, 0, [0x4D, 0x5A]) || !At(data, U32(data, 0x3C), SIGNATURE)
    ensures Imports(data) == Names([])
  {
    if |data| >= 0x40 {
      SliceIsAt(data, 0, [0x4D, 0x5A]);
      SliceIsAt(data, U32(data, 0x3C), SIGNATURE);
    }
  }

  lemma SliceIsAt(data: seq<Byte>, at: nat, part: seq<Byte>)
    requires part != []
    ensures Slice(data, at, |part|) == part <==> At(data, at, part)
  {
  }

  // ----- Well-formed images -----

  /** No two sections hold one address. */
  predicate Apart(sections: seq<Section>) {
    forall i, j :: 0 <= i < j < |sections| ==>
      sections[i].virtualAddress + Max(sections[i].virtualSize, sections[i].rawSize) <= sections[j].virtualAddress
      || sections[j].virtualAddress + Max(sections[j].virtualSize, sections[j].rawSize) <= sections[i].virtualAddress
  }

  /** `length` bytes loaded from `rva` on are those of the file from `offset` on, all in one section. */
  ghost predicate LoadedFrom(sections: seq<Section>, rva: nat, length: nat, offset: nat) {
    length > 0
    && exists i, k: nat :: 0 <= i < |sections| && InSection(sections[i], rva, length, offset, k)
  }

  /** The `k`th byte of the section and on: in memory from its address, in the file from its pointer, and no
      further than the longer of the two. */
  predicate InSection(section: Section, rva: nat, length: nat, offset: nat, k: nat) {
    && rva == section.virtualAddress + k && offset == section.rawPointer + k
    && (k + length <= section.virtualSize || k + length <= section.rawSize)
  }

  /** An import: where its name is loaded, and the name. */
  datatype Import = Import(nameRva: nat, name: string)

  /** The file from `offset` on is `name` as bytes and a zero byte. */
  predicate NameAt(data: seq<Byte>, offset: nat, name: string) {
    && offset + |name| < |data| && data[offset + |name|] == 0
    && forall i :: 0 <= i < |name| ==> 0 < name[i] as int < 128 && data[offset + i] == name[i] as int
  }

  /** Sections apart, and an import table in one of them that holds `imports` in order and ends with a zero
      descriptor; every name is ASCII, in one section and ended by a zero byte. */
  ghost predicate WellFormed(data: seq<Byte>, headers: Headers, imports: seq<Import>, table: nat) {
    && Apart(headers.sections)
    && headers.importRva > 0
    && LoadedFrom(headers.sections, headers.importRva, 20 * (|imports| + 1), table)
    && table + 20 * (|imports| + 1) <= |data|
    && data[table + 20 * |imports|..table + 20 * (|imports| + 1)] == ZEROS
    && forall k :: 0 <= k < |imports| ==> ImportAt(data, headers.sections, imports[k], table + 20 * k)
  }

  ghost predicate ImportAt(data: seq<Byte>, sections: seq<Section>, entry: Import, descriptor: nat) {
    && entry.nameRva > 0 && U32(data, descriptor + 12) == entry.nameRva
    && exists offset: nat ::
         LoadedFrom(sections, entry.nameRva, |entry.name| + 1, offset) && NameAt(data, offset, entry.name)
  }

  lemma {:induction false} OnlyOneSection(sections: seq<Section>, rva: nat, i: nat)
    requires Apart(sections) && i < |sections| && Holds(sections[i], rva)
    ensures FileOffset(sections, rva) == Some(OffsetIn(sections[i], rva))
  {
    if i > 0 {
      assert !Holds(sections[0], rva);
      assert sections[1..][i - 1] == sections[i];
      OnlyOneSection(sections[1..], rva, i - 1);
    }
  }

  lemma LoadedIsFound(sections: seq<Section>, rva: nat, length: nat, offset: nat)
    requires Apart(sections) && LoadedFrom(sections, rva, length, offset)
    ensures FileOffset(sections, rva) == Some(offset)
  {
    var i, k: nat :| 0 <= i < |sections| && InSection(sections[i], rva, length, offset, k);
    OnlyOneSection(sections, rva, i);
  }

  lemma ZeroDescriptorHasNoName(data: seq<Byte>, descriptor: nat)
    requires Slice(data, descriptor, 20) == ZEROS
    ensures U32(data, descriptor + 12) == 0
  {
    var whole, name := Slice(data, descriptor, 20), Slice(data, descriptor + 12, 4);
    assert |whole| == 20 && descriptor + 20 <= |data|;
    assert whole == data[descriptor..descriptor + 20] && name == data[descriptor + 12..descriptor + 16];
    assert forall i | 0 <= i < 4 :: name[i] == data[descriptor + (12 + i)] == whole[12 + i];
    assert whole[12] == 0 && whole[13] == 0 && whole[14] == 0 && whole[15] == 0;
    assert name == [0, 0, 0, 0];
    LittleZeros();
  }

  lemma LittleZeros()
    ensures Little([0, 0, 0, 0]) == 0
  {
    assert [0, 0, 0, 0][1..] == [0, 0, 0] && [0, 0, 0][1..] == [0, 0] && [0, 0][1..] == [0];
    assert Little([0]) == 0 && Little([0, 0]) == 0 && Little([0, 0, 0]) == 0;
  }

  lemma NameIsRead(data: seq<Byte>, offset: nat, name: string)
    requires NameAt(data, offset, name)
    ensures ZeroFrom(data, offset) == Some(offset + |name|)
    ensures Ascii(data[offset..offset + |name|]) && Text(data[offset..offset + |name|]) == name
  {
    var bytes := data[offset..offset + |name|];
    forall i | 0 <= i < |name| ensures bytes[i] == name[i] as int {
      assert data[offset + i] == name[i] as int;
    }
    ZeroIsThere(data, offset, offset + |name|);
  }

  lemma {:induction false} ZeroIsThere(data: seq<Byte>, at: nat, end: nat)
    requires at <= end < |data| && data[end] == 0 && forall i :: at <= i < end ==> data[i] != 0
    ensures ZeroFrom(data, at) == Some(end)
    decreases end - at
  {
    if at < end {
      ZeroIsThere(data, at + 1, end);
    }
  }

  function NamesOf(imports: seq<Import>): seq<string> {
    seq(|imports|, i requires 0 <= i < |imports| => imports[i].name)
  }

  /** One descriptor of the table gives its name and goes on with the next. */
  lemma ImportIsWalked(data: seq<Byte>, sections: seq<Section>, entry: Import, descriptor: nat)
    requires Apart(sections) && ImportAt(data, sections, entry, descriptor) && descriptor + 20 <= |data|
    ensures Walk(data, sections, descriptor) == Named(entry.name, Walk(data, sections, descriptor + 20))
  {
    hide Apart, LoadedFrom, Text, FileOffset, Little;
    if Slice(data, descriptor, 20) == ZEROS {
      ZeroDescriptorHasNoName(data, descriptor);
    }
    var offset: nat :|
      LoadedFrom(sections, entry.nameRva, |entry.name| + 1, offset) && NameAt(data, offset, entry.name);
    LoadedIsFound(sections, entry.nameRva, |entry.name| + 1, offset);
    NameIsRead(data, offset, entry.name);
  }

  lemma {:induction false} TableIsWalked(data: seq<Byte>, headers: Headers, imports: seq<Import>, table: nat, from: nat)
    requires WellFormed(data, headers, imports, table) && from <= |imports|
    ensures Walk(data, headers.sections, table + 20 * from) == Names(NamesOf(imports[from..]))
    decreases |imports| - from
  {
    hide Apart, LoadedFrom, ReadHeaders, ImportAt, Walk;
    var descriptor := table + 20 * from;
    if from < |imports| {
      assert ImportAt(data, headers.sections, imports[from], table + 20 * from);
      ImportIsWalked(data, headers.sections, imports[from], descriptor);
      TableIsWalked(data, headers, imports, table, from + 1);
      assert table + 20 * (from + 1) == descriptor + 20;
      assert NamesOf(imports[from..]) == [imports[from].name] + NamesOf(imports[from + 1..]);
    } else {
      TableEnds(data, headers, imports, table);
      assert NamesOf(imports[from..]) == [];
    }
  }

  lemma TableEnds(data: seq<Byte>, headers: Headers, imports: seq<Import>, table: nat)
    requires WellFormed(data, headers, imports, table)
    ensures Walk(data, headers.sections, table + 20 * |imports|) == Names([])
  {
    hide Apart, LoadedFrom, ReadHeaders, ImportAt, FileOffset, ZeroFrom;
    var descriptor := table + 20 * |imports|;
    assert Slice(data, descriptor, 20) == data[descriptor..descriptor + 20] == ZEROS;
  }

  /** For every image so packed with a well-formed import table, the names are exactly those of its table, in
      order. */
  lemma WellFormedImportsAreNamed(data: seq<Byte>, image: Image, imports: seq<Import>, table: nat)
    requires IsImage(data, image) && WellFormed(data, HeadersOf(image), imports, table)
    ensures Imports(data) == Names(NamesOf(imports))
  {
    HeadersAreRead(data, image);
    hide IsImage, ReadHeaders, Walk, Apart, ImportAt, FileOffset, LoadedFrom, HeadersOf;
    var headers := HeadersOf(image);
    LoadedIsFound(headers.sections, headers.importRva, 20 * (|imports| + 1), table);
    TableIsWalked(data, headers, imports, table, 0);
    assert imports[0..] == imports;
  }
}
