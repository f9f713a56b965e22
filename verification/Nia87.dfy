/** The keyboard's wire vocabulary: 64-byte replies, key matrices in pages of sixteen
    four-byte bindings, write reports, and the meaning each report has on the device.
    Report headers and checksums are left out; a report keeps only its decoded fields. */
module Nia87 {
  import opened Wrappers
  import opened MacroCodec
  import opened SettingsCodec

  const FIRMWARE: nat := 0x0100
  const MATRIX_SLOTS: nat := 128
  const WRITABLE_SLOTS: nat := 126
  const MATRIX_PAGES: nat := 8
  const MACRO_SLOTS: nat := 50
  const MACRO_PAGES: nat := 4
  const MACRO_WRITE_PAGES: nat := 5
  const MACRO_PAGE_DATA: nat := 56
  const MACRO_WRITE_LEN: nat := 250
  const PICTURE_LEN: nat := 384
  const PICTURE_PAGES: nat := 6
  const PICTURE_WRITE_PAGES: nat := 7
  const LED_READ_COMMAND: Byte := 0x87

  type Binding = b: seq<Byte> | |b| == 4 witness [0, 0, 0, 0]
  const UNBOUND: Binding := [0, 0, 0, 0]
  type Matrix = m: seq<Binding> | |m| == MATRIX_SLOTS witness seq<Binding>(MATRIX_SLOTS, i => UNBOUND)
  type Picture = p: seq<Byte> | |p| == PICTURE_LEN witness seq(PICTURE_LEN, i => 0)

  /** Both key maps, with the identity bytes that every read of them reports. */
  datatype Keymaps = Keymaps(firmware: U16, profile: Byte, base: Matrix, fn: Matrix)

  datatype ReadRequest = ReadRequest(opcode: Byte, index: Byte, page: Byte)

  datatype WriteReport =
    | SingleKey(fn: bool, index: Byte, slot: nat, binding: Binding)
    | MacroPage(number: Byte, page: nat, data: seq<Byte>)
    | Lighting(bytes: Reply)
    | PicturePage(page: nat, data: seq<Byte>)
    | Setting(bytes: Reply)

  // ---------------------------------------------------------------- matrices

  /** The bindings of `page` as the sixty-four bytes of one reply. */
  function MatrixPage(matrix: Matrix, page: nat): (r: Reply)
    requires page < MATRIX_PAGES
  {
    seq(REPORT_LEN, i requires 0 <= i < REPORT_LEN => matrix[16 * page + i / 4][i % 4])
  }

  function MatrixPages(matrix: Matrix, count: nat): (pages: seq<Reply>)
    requires count <= MATRIX_PAGES
    ensures |pages| == count
  {
    seq(count, page requires 0 <= page < count => MatrixPage(matrix, page))
  }

  /** Exactly eight replies carry a matrix; any other number is an error. */
  function MatrixFromPages(pages: seq<Reply>): (m: Option<Matrix>)
  {
    if |pages| != MATRIX_PAGES then None
    else Some(seq(MATRIX_SLOTS, i requires 0 <= i < MATRIX_SLOTS => BindingAt(pages, i)))
  }

  function BindingAt(pages: seq<Reply>, slot: nat): (b: Binding)
    requires |pages| == MATRIX_PAGES && slot < MATRIX_SLOTS
  {
    pages[slot / 16][4 * (slot % 16)..4 * (slot % 16) + 4]
  }

  /** Paging a matrix out and reading the pages back loses no slot. */
  lemma {:induction false} MatrixPagesRoundTrip(matrix: Matrix)
    ensures MatrixFromPages(MatrixPages(matrix, MATRIX_PAGES)) == Some(matrix)
  {
    var pages := MatrixPages(matrix, MATRIX_PAGES);
    forall slot | 0 <= slot < MATRIX_SLOTS
      ensures BindingAt(pages, slot) == matrix[slot]
    {
      forall j | 0 <= j < 4
        ensures BindingAt(pages, slot)[j] == matrix[slot][j]
      {
        assert (4 * (slot % 16) + j) / 4 == slot % 16 && (4 * (slot % 16) + j) % 4 == j;
      }
    }
    assert MatrixFromPages(pages).value == matrix;
  }

  /** Consecutive replies as one run of bytes. */
  function Joined(pages: seq<Reply>): (bytes: seq<Byte>)
    ensures |bytes| == REPORT_LEN * |pages|
    ensures forall i :: 0 <= i < |bytes| ==> bytes[i] == pages[i / REPORT_LEN][i % REPORT_LEN]
  {
    seq(REPORT_LEN * |pages|, i requires 0 <= i < REPORT_LEN * |pages| => pages[i / REPORT_LEN][i % REPORT_LEN])
  }

  // ------------------------------------------------------------------ macros

  function MacroReadPage(image: MacroImage, page: nat): Reply
    requires page < MACRO_PAGES
  {
    image[64 * page..64 * page + 64]
  }

  /** The part of an image that write page `page` carries: four full pages of fifty-six
      bytes, then a final page of twenty-six. */
  function MacroWriteData(image: MacroImage, page: nat): (data: seq<Byte>)
    requires page < MACRO_WRITE_PAGES
    ensures |data| == if page == 4 then 26 else MACRO_PAGE_DATA
  {
    var start := page * MACRO_PAGE_DATA;
    image[start..if page == 4 then MACRO_WRITE_LEN else start + MACRO_PAGE_DATA]
  }

  /** The five reports that replace a slot; refused unless the image decodes. */
  function MacroWriteReports(number: Byte, image: MacroImage): (reports: Option<seq<WriteReport>>)
    ensures reports.Some? <==> number < MACRO_SLOTS && Decode(image).Some?
    ensures reports.Some? ==> |reports.value| == MACRO_WRITE_PAGES
  {
    if number < MACRO_SLOTS && Decode(image).Some? then
      Some(seq(MACRO_WRITE_PAGES, page requires 0 <= page < MACRO_WRITE_PAGES =>
                 MacroPage(number, page, MacroWriteData(image, page))))
    else None
  }

  /** `slot-NN` with NN below fifty. */
  function SlotNumber(slot: string): (number: Option<Byte>)
    ensures number.Some? ==> number.value < MACRO_SLOTS
  {
    if |slot| == 7 && slot[..5] == "slot-" && '0' <= slot[5] <= '9' && '0' <= slot[6] <= '9'
       && 10 * (slot[5] as int - '0' as int) + (slot[6] as int - '0' as int) < MACRO_SLOTS
    then Some(10 * (slot[5] as int - '0' as int) + (slot[6] as int - '0' as int))
    else None
  }

  // ------------------------------------------------------------------ device

  datatype Device = Device(
    keymaps: Keymaps,
    lighting: Reply,
    picture: Picture,
    macros: seq<MacroImage>,
    settings: Settings)

  ghost predicate WellFormed(d: Device) {
    && |d.macros| == MACRO_SLOTS
    && d.lighting[0] == LED_READ_COMMAND
    && ValidSettings(d.settings)
  }

  /** What a faithful keyboard answers to a request it knows. */
  function ReplyTo(d: Device, r: ReadRequest): (reply: Option<Reply>)
    requires |d.macros| == MACRO_SLOTS
  {
    match r.opcode
    case 0x80 => Some([0x80, d.keymaps.firmware % 256, d.keymaps.firmware / 256] + seq(61, i => 0))
    case 0x85 => Some([0x85, d.keymaps.profile] + seq(62, i => 0))
    case 0x89 => if r.page < MATRIX_PAGES then Some(MatrixPage(d.keymaps.base, r.page)) else None
    case 0x90 => if r.page < MATRIX_PAGES then Some(MatrixPage(d.keymaps.fn, r.page)) else None
    case 0x87 => Some(d.lighting)
    case 0x8c => if r.page < PICTURE_PAGES then Some(d.picture[64 * r.page..64 * r.page + 64]) else None
    case 0x8b =>
      if r.index < MACRO_SLOTS && r.page < MACRO_PAGES
      then Some(MacroReadPage(d.macros[r.index], r.page)) else None
    case 0x91 => Some(d.settings.debounce)
    case 0x97 => Some(d.settings.autoOs)
    case 0x92 => Some(d.settings.sleep)
    case 0x86 => Some(d.settings.options)
    case _ => None
  }

  /** Overwrites `bytes` from `start` with `data`. */
  function Splice(bytes: seq<Byte>, start: nat, data: seq<Byte>): (r: seq<Byte>)
    requires start + |data| <= |bytes|
    ensures |r| == |bytes|
    ensures forall i :: 0 <= i < |bytes| ==>
      r[i] == if start <= i < start + |data| then data[i - start] else bytes[i]
  {
    bytes[..start] + data + bytes[start + |data|..]
  }

  /** The device after `report` has landed. */
  function Land(d: Device, report: WriteReport): (after: Device)
    ensures |after.macros| == |d.macros|
  {
    match report
    case SingleKey(fn, _, slot, binding) =>
      if slot >= MATRIX_SLOTS then d
      else if fn then d.(keymaps := d.keymaps.(fn := d.keymaps.fn[slot := binding]))
      else d.(keymaps := d.keymaps.(base := d.keymaps.base[slot := binding]))
    case MacroPage(number, page, data) =>
      if number < |d.macros| && page * MACRO_PAGE_DATA + |data| <= MACRO_LEN
      then d.(macros := d.macros[number := Splice(d.macros[number], page * MACRO_PAGE_DATA, data)])
      else d
    case Lighting(bytes) => d.(lighting := Splice(d.lighting, 1, bytes[1..8]))
    case PicturePage(page, data) =>
      if page * MACRO_PAGE_DATA + |data| <= PICTURE_LEN
      then d.(picture := Splice(d.picture, page * MACRO_PAGE_DATA, data))
      else d
    case Setting(bytes) => d.(settings := LandSetting(d.settings, bytes))
  }
}
