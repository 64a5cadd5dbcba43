/** Stack-frame locations (src/frames.ts). */
module Frames {
  import opened Wrappers

  /** Where a stack frame points: a script URL, an optional function name, a line and a column. */
  datatype FrameInfo = FrameInfo(
    url: string,
    functionName: Option<string>,
    lineNumber: int,
    columnNumber: int)
}
