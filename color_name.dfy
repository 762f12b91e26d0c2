/** `VideoDescriptionGenerator.color_name` of `python/app.py`: the name of the dominant
    colour of one RGB pixel. */
module ColorName {
  datatype Color = White | Black | Red | Green | Blue | Mixed

  /** The string `color_name` returns for each colour. */
  function Name(c: Color): string
  {
    match c
    case White => "white"
    case Black => "black"
    case Red => "red"
    case Green => "green"
    case Blue => "blue"
    case Mixed => "mixed"
  }

  function Max(a: int, b: int): int
  {
    if a >= b then a else b
  }

  /** `color_name((r, g, b))` */
  function ColorOf(r: int, g: int, b: int): Color
  {
    if r > 200 && g > 200 && b > 200 then White
    else if r < 50 && g < 50 && b < 50 then Black
    else if r > Max(g, b) then Red
    else if g > Max(r, b) then Green
    else if b > Max(r, g) then Blue
    else Mixed
  }

  /** The very light and very dark tests come before any channel comparison. */
  lemma LightAndDarkComeFirst(r: int, g: int, b: int)
    ensures (r > 200 && g > 200 && b > 200) <==> ColorOf(r, g, b) == White
    ensures (r < 50 && g < 50 && b < 50) <==> ColorOf(r, g, b) == Black
  {
  }

  /** Outside those two, a channel strictly larger than both others names the colour, and
      a tie for the largest channel gives `mixed`. */
  lemma LargestChannelNamesColor(r: int, g: int, b: int)
    requires !(r > 200 && g > 200 && b > 200) && !(r < 50 && g < 50 && b < 50)
    ensures ColorOf(r, g, b) == Red <==> r > g && r > b
    ensures ColorOf(r, g, b) == Green <==> g > r && g > b
    ensures ColorOf(r, g, b) == Blue <==> b > r && b > g
    ensures ColorOf(r, g, b) == Mixed <==>
      var m := Max(r, Max(g, b));
      (r == m && g == m) || (r == m && b == m) || (g == m && b == m)
  {
  }

  /** The result is one of the six names. */
  lemma NameIsOneOfSix(r: int, g: int, b: int)
    ensures Name(ColorOf(r, g, b)) in ["white", "black", "red", "green", "blue", "mixed"]
  {
  }

  /** Pure red is red, mid grey is mixed, near-white is white. */
  lemma ColorExamples()
    ensures ColorOf(255, 0, 0) == Red
    ensures ColorOf(128, 128, 128) == Mixed
    ensures ColorOf(201, 255, 230) == White
    ensures ColorOf(49, 0, 10) == Black
    ensures ColorOf(200, 255, 230) == Green
  {
  }
}
