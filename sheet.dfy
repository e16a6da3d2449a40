/** Sprite-sheet geometry (src/engine/sheet.rs). A sheet maps frame names to cells; the
    JSON decoding is not part of the model. */
module Sheets {
  import opened Ints

  datatype SheetRect = SheetRect(x: I16, y: I16, w: I16, h: I16)

  /** `frame` is the cell's place in the atlas; `spriteSourceSize` the offset at which the
      trimmed sprite is drawn. */
  datatype Cell = Cell(frame: SheetRect, spriteSourceSize: SheetRect)

  /** Every frame name the game asks for resolves to a cell. */
  type Sheet = string -> Cell
}
