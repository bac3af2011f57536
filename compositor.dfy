// Where visualize draws the annotated bitmap on the preview canvas: scaled to
// fit the binding dimension and centred along the other.
module Compositor {
  import opened Data
  import opened KotlinMath

  /** The destination rectangle of the letterboxed blit.
      `(x * ratio).toInt()` is taken as the exact integer quotient x * num / den. */
  function Letterbox(canvas: Canvas, bitmap: Bitmap): (r: Rect)
    ensures canvas.height > canvas.width ==>
      r.left == 0 && r.right == canvas.width
      && (r.bottom - r.top) * bitmap.width <= canvas.width * bitmap.height
      && canvas.width * bitmap.height < (r.bottom - r.top + 1) * bitmap.width
    ensures canvas.height <= canvas.width ==>
      r.top == 0 && r.bottom == canvas.height
      && (r.right - r.left) * bitmap.height <= canvas.height * bitmap.width
      && canvas.height * bitmap.width < (r.right - r.left + 1) * bitmap.height
    ensures -1 <= r.top - (canvas.height - r.bottom) <= 1
    ensures -1 <= r.left - (canvas.width - r.right) <= 1
    ensures r.bottom <= canvas.height ==> 0 <= r.top
    ensures r.right <= canvas.width ==> 0 <= r.left
  {
    if canvas.height > canvas.width then
      var screenWidth := canvas.width;
      var screenHeight := ScaledLength(canvas.width, bitmap.height, bitmap.width);
      var top := Div(canvas.height - screenHeight, 2);
      Rect(0, top, screenWidth, top + screenHeight)
    else
      var screenHeight := canvas.height;
      var screenWidth := ScaledLength(canvas.height, bitmap.width, bitmap.height);
      var left := Div(canvas.width - screenWidth, 2);
      Rect(left, 0, left + screenWidth, screenHeight)
  }

  /** A length scaled by num / den and rounded down. */
  function ScaledLength(length: nat, num: Dim, den: Dim): (r: nat)
    ensures r * den <= length * num < (r + 1) * den
  {
    var product := length * num;
    var r := product / den;
    assert product == r * den + product % den;
    r
  }
}
