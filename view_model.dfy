/** The screen-size holder of ExamViewModel.kt. */
module ViewModel {

  /** Kotlin's `Int`. */
  newtype Int32 = x: int | -0x8000_0000 <= x < 0x8000_0000

  class ExamViewModel {
    var screenWidthPx: Int32
    var screenHeightPx: Int32

    /** Both dimensions start at 0, meaning "not measured yet". */
    constructor ()
      ensures screenWidthPx == 0 && screenHeightPx == 0
    {
      screenWidthPx := 0;
      screenHeightPx := 0;
    }

    /** Stores both dimensions as given, with no check on their sign. */
    method UpdateScreenSize(width: Int32, height: Int32)
      modifies this
      ensures screenWidthPx == width
      ensures screenHeightPx == height
    {
      screenWidthPx := width;
      screenHeightPx := height;
    }
  }
}
