/** Colours and the colour-name resolver of the blinkstick tool. */
module Colors {

  /** An 8-bit unsigned channel value (Go's `uint8`, alias `byte`). */
  type Byte = x: int | 0 <= x < 0x100

  /** Go's `color.RGBA`: red, green, blue and alpha, 8 bits each. */
  datatype RGBA = RGBA(r: Byte, g: Byte, b: Byte, a: Byte)

  /** The fully black, fully opaque colour the tool sends to turn the light off. */
  const COLOR_OFF: RGBA := RGBA(0x00, 0x00, 0x00, 0xff)

  datatype Option<T> = None | Some(value: T)

  /** Why a colour name could not be resolved: the name that was asked for. */
  datatype LookupError = InvalidColor(name: string)

  datatype Result<T> = Ok(value: T) | Err(error: LookupError)

  /** The fixed name-to-colour table: the extended colour keywords of CSS Color
      Module Level 3 (section 4.3), plus the extra key "off". The keys are
      pairwise distinct, so matching them in turn is the same partial function
      as the map literal it models; every entry is fully opaque. */
  function ColorTable(name: string): (c: Option<RGBA>)
    ensures c.Some? ==> c.value.a == 0xff
  {
    match name
    case "aliceblue" => Some(RGBA(0xf0, 0xf8, 0xff, 0xff))
    case "antiquewhite" => Some(RGBA(0xfa, 0xeb, 0xd7, 0xff))
    case "aqua" => Some(RGBA(0x00, 0xff, 0xff, 0xff))
    case "aquamarine" => Some(RGBA(0x7f, 0xff, 0xd4, 0xff))
    case "azure" => Some(RGBA(0xf0, 0xff, 0xff, 0xff))
    case "beige" => Some(RGBA(0xf5, 0xf5, 0xdc, 0xff))
    case "bisque" => Some(RGBA(0xff, 0xe4, 0xc4, 0xff))
    case "black" => Some(RGBA(0x00, 0x00, 0x00, 0xff))
    case "blanchedalmond" => Some(RGBA(0xff, 0xeb, 0xcd, 0xff))
    case "blue" => Some(RGBA(0x00, 0x00, 0xff, 0xff))
    case "blueviolet" => Some(RGBA(0x8a, 0x2b, 0xe2, 0xff))
    case "brown" => Some(RGBA(0xa5, 0x2a, 0x2a, 0xff))
    case "burlywood" => Some(RGBA(0xde, 0xb8, 0x87, 0xff))
    case "cadetblue" => Some(RGBA(0x5f, 0x9e, 0xa0, 0xff))
    case "chartreuse" => Some(RGBA(0x7f, 0xff, 0x00, 0xff))
    case "chocolate" => Some(RGBA(0xd2, 0x69, 0x1e, 0xff))
    case "coral" => Some(RGBA(0xff, 0x7f, 0x50, 0xff))
    case "cornflowerblue" => Some(RGBA(0x64, 0x95, 0xed, 0xff))
    case "cornsilk" => Some(RGBA(0xff, 0xf8, 0xdc, 0xff))
    case "crimson" => Some(RGBA(0xdc, 0x14, 0x3c, 0xff))
    case "cyan" => Some(RGBA(0x00, 0xff, 0xff, 0xff))
    case "darkblue" => Some(RGBA(0x00, 0x00, 0x8b, 0xff))
    case "darkcyan" => Some(RGBA(0x00, 0x8b, 0x8b, 0xff))
    case "darkgoldenrod" => Some(RGBA(0xb8, 0x86, 0x0b, 0xff))
    case "darkgray" => Some(RGBA(0xa9, 0xa9, 0xa9, 0xff))
    case "darkgrey" => Some(RGBA(0xa9, 0xa9, 0xa9, 0xff))
    case "darkgreen" => Some(RGBA(0x00, 0x64, 0x00, 0xff))
    case "darkkhaki" => Some(RGBA(0xbd, 0xb7, 0x6b, 0xff))
    case "darkmagenta" => Some(RGBA(0x8b, 0x00, 0x8b, 0xff))
    case "darkolivegreen" => Some(RGBA(0x55, 0x6b, 0x2f, 0xff))
    case "darkorange" => Some(RGBA(0xff, 0x8c, 0x00, 0xff))
    case "darkorchid" => Some(RGBA(0x99, 0x32, 0xcc, 0xff))
    case "darkred" => Some(RGBA(0x8b, 0x00, 0x00, 0xff))
    case "darksalmon" => Some(RGBA(0xe9, 0x96, 0x7a, 0xff))
    case "darkseagreen" => Some(RGBA(0x8f, 0xbc, 0x8f, 0xff))
    case "darkslateblue" => Some(RGBA(0x48, 0x3d, 0x8b, 0xff))
    case "darkslategray" => Some(RGBA(0x2f, 0x4f, 0x4f, 0xff))
    case "darkslategrey" => Some(RGBA(0x2f, 0x4f, 0x4f, 0xff))
    case "darkturquoise" => Some(RGBA(0x00, 0xce, 0xd1, 0xff))
    case "darkviolet" => Some(RGBA(0x94, 0x00, 0xd3, 0xff))
    case "deeppink" => Some(RGBA(0xff, 0x14, 0x93, 0xff))
    case "deepskyblue" => Some(RGBA(0x00, 0xbf, 0xff, 0xff))
    case "dimgray" => Some(RGBA(0x69, 0x69, 0x69, 0xff))
    case "dimgrey" => Some(RGBA(0x69, 0x69, 0x69, 0xff))
    case "dodgerblue" => Some(RGBA(0x1e, 0x90, 0xff, 0xff))
    case "firebrick" => Some(RGBA(0xb2, 0x22, 0x22, 0xff))
    case "floralwhite" => Some(RGBA(0xff, 0xfa, 0xf0, 0xff))
    case "forestgreen" => Some(RGBA(0x22, 0x8b, 0x22, 0xff))
    case "fuchsia" => Some(RGBA(0xff, 0x00, 0xff, 0xff))
    case "gainsboro" => Some(RGBA(0xdc, 0xdc, 0xdc, 0xff))
    case "ghostwhite" => Some(RGBA(0xf8, 0xf8, 0xff, 0xff))
    case "gold" => Some(RGBA(0xff, 0xd7, 0x00, 0xff))
    case "goldenrod" => Some(RGBA(0xda, 0xa5, 0x20, 0xff))
    case "gray" => Some(RGBA(0x80, 0x80, 0x80, 0xff))
    case "grey" => Some(RGBA(0x80, 0x80, 0x80, 0xff))
    case "green" => Some(RGBA(0x00, 0x80, 0x00, 0xff))
    case "greenyellow" => Some(RGBA(0xad, 0xff, 0x2f, 0xff))
    case "honeydew" => Some(RGBA(0xf0, 0xff, 0xf0, 0xff))
    case "hotpink" => Some(RGBA(0xff, 0x69, 0xb4, 0xff))
    case "indianred" => Some(RGBA(0xcd, 0x5c, 0x5c, 0xff))
    case "indigo" => Some(RGBA(0x4b, 0x00, 0x82, 0xff))
    case "ivory" => Some(RGBA(0xff, 0xff, 0xf0, 0xff))
    case "khaki" => Some(RGBA(0xf0, 0xe6, 0x8c, 0xff))
    case "lavender" => Some(RGBA(0xe6, 0xe6, 0xfa, 0xff))
    case "lavenderblush" => Some(RGBA(0xff, 0xf0, 0xf5, 0xff))
    case "lawngreen" => Some(RGBA(0x7c, 0xfc, 0x00, 0xff))
    case "lemonchiffon" => Some(RGBA(0xff, 0xfa, 0xcd, 0xff))
    case "lightblue" => Some(RGBA(0xad, 0xd8, 0xe6, 0xff))
    case "lightcoral" => Some(RGBA(0xf0, 0x80, 0x80, 0xff))
    case "lightcyan" => Some(RGBA(0xe0, 0xff, 0xff, 0xff))
    case "lightgoldenrodyellow" => Some(RGBA(0xfa, 0xfa, 0xd2, 0xff))
    case "lightgray" => Some(RGBA(0xd3, 0xd3, 0xd3, 0xff))
    case "lightgrey" => Some(RGBA(0xd3, 0xd3, 0xd3, 0xff))
    case "lightgreen" => Some(RGBA(0x90, 0xee, 0x90, 0xff))
    case "lightpink" => Some(RGBA(0xff, 0xb6, 0xc1, 0xff))
    case "lightsalmon" => Some(RGBA(0xff, 0xa0, 0x7a, 0xff))
    case "lightseagreen" => Some(RGBA(0x20, 0xb2, 0xaa, 0xff))
    case "lightskyblue" => Some(RGBA(0x87, 0xce, 0xfa, 0xff))
    case "lightslategray" => Some(RGBA(0x77, 0x88, 0x99, 0xff))
    case "lightslategrey" => Some(RGBA(0x77, 0x88, 0x99, 0xff))
    case "lightsteelblue" => Some(RGBA(0xb0, 0xc4, 0xde, 0xff))
    case "lightyellow" => Some(RGBA(0xff, 0xff, 0xe0, 0xff))
    case "lime" => Some(RGBA(0x00, 0xff, 0x00, 0xff))
    case "limegreen" => Some(RGBA(0x32, 0xcd, 0x32, 0xff))
    case "linen" => Some(RGBA(0xfa, 0xf0, 0xe6, 0xff))
    case "magenta" => Some(RGBA(0xff, 0x00, 0xff, 0xff))
    case "maroon" => Some(RGBA(0x80, 0x00, 0x00, 0xff))
    case "mediumaquamarine" => Some(RGBA(0x66, 0xcd, 0xaa, 0xff))
    case "mediumblue" => Some(RGBA(0x00, 0x00, 0xcd, 0xff))
    case "mediumorchid" => Some(RGBA(0xba, 0x55, 0xd3, 0xff))
    case "mediumpurple" => Some(RGBA(0x93, 0x70, 0xd8, 0xff))
    case "mediumseagreen" => Some(RGBA(0x3c, 0xb3, 0x71, 0xff))
    case "mediumslateblue" => Some(RGBA(0x7b, 0x68, 0xee, 0xff))
    case "mediumspringgreen" => Some(RGBA(0x00, 0xfa, 0x9a, 0xff))
    case "mediumturquoise" => Some(RGBA(0x48, 0xd1, 0xcc, 0xff))
    case "mediumvioletred" => Some(RGBA(0xc7, 0x15, 0x85, 0xff))
    case "midnightblue" => Some(RGBA(0x19, 0x19, 0x70, 0xff))
    case "mintcream" => Some(RGBA(0xf5, 0xff, 0xfa, 0xff))
    case "mistyrose" => Some(RGBA(0xff, 0xe4, 0xe1, 0xff))
    case "moccasin" => Some(RGBA(0xff, 0xe4, 0xb5, 0xff))
    case "navajowhite" => Some(RGBA(0xff, 0xde, 0xad, 0xff))
    case "navy" => Some(RGBA(0x00, 0x00, 0x80, 0xff))
    case "oldlace" => Some(RGBA(0xfd, 0xf5, 0xe6, 0xff))
    case "olive" => Some(RGBA(0x80, 0x80, 0x00, 0xff))
    case "olivedrab" => Some(RGBA(0x6b, 0x8e, 0x23, 0xff))
    case "orange" => Some(RGBA(0xff, 0xa5, 0x00, 0xff))
    case "orangered" => Some(RGBA(0xff, 0x45, 0x00, 0xff))
    case "orchid" => Some(RGBA(0xda, 0x70, 0xd6, 0xff))
    case "palegoldenrod" => Some(RGBA(0xee, 0xe8, 0xaa, 0xff))
    case "palegreen" => Some(RGBA(0x98, 0xfb, 0x98, 0xff))
    case "paleturquoise" => Some(RGBA(0xaf, 0xee, 0xee, 0xff))
    case "palevioletred" => Some(RGBA(0xd8, 0x70, 0x93, 0xff))
    case "papayawhip" => Some(RGBA(0xff, 0xef, 0xd5, 0xff))
    case "peachpuff" => Some(RGBA(0xff, 0xda, 0xb9, 0xff))
    case "peru" => Some(RGBA(0xcd, 0x85, 0x3f, 0xff))
    case "pink" => Some(RGBA(0xff, 0xc0, 0xcb, 0xff))
    case "plum" => Some(RGBA(0xdd, 0xa0, 0xdd, 0xff))
    case "powderblue" => Some(RGBA(0xb0, 0xe0, 0xe6, 0xff))
    case "purple" => Some(RGBA(0x80, 0x00, 0x80, 0xff))
    case "red" => Some(RGBA(0xff, 0x00, 0x00, 0xff))
    case "rosybrown" => Some(RGBA(0xbc, 0x8f, 0x8f, 0xff))
    case "royalblue" => Some(RGBA(0x41, 0x69, 0xe1, 0xff))
    case "saddlebrown" => Some(RGBA(0x8b, 0x45, 0x13, 0xff))
    case "salmon" => Some(RGBA(0xfa, 0x80, 0x72, 0xff))
    case "sandybrown" => Some(RGBA(0xf4, 0xa4, 0x60, 0xff))
    case "seagreen" => Some(RGBA(0x2e, 0x8b, 0x57, 0xff))
    case "seashell" => Some(RGBA(0xff, 0xf5, 0xee, 0xff))
    case "sienna" => Some(RGBA(0xa0, 0x52, 0x2d, 0xff))
    case "silver" => Some(RGBA(0xc0, 0xc0, 0xc0, 0xff))
    case "skyblue" => Some(RGBA(0x87, 0xce, 0xeb, 0xff))
    case "slateblue" => Some(RGBA(0x6a, 0x5a, 0xcd, 0xff))
    case "slategray" => Some(RGBA(0x70, 0x80, 0x90, 0xff))
    case "slategrey" => Some(RGBA(0x70, 0x80, 0x90, 0xff))
    case "snow" => Some(RGBA(0xff, 0xfa, 0xfa, 0xff))
    case "springgreen" => Some(RGBA(0x00, 0xff, 0x7f, 0xff))
    case "steelblue" => Some(RGBA(0x46, 0x82, 0xb4, 0xff))
    case "tan" => Some(RGBA(0xd2, 0xb4, 0x8c, 0xff))
    case "teal" => Some(RGBA(0x00, 0x80, 0x80, 0xff))
    case "thistle" => Some(RGBA(0xd8, 0xbf, 0xd8, 0xff))
    case "tomato" => Some(RGBA(0xff, 0x63, 0x47, 0xff))
    case "turquoise" => Some(RGBA(0x40, 0xe0, 0xd0, 0xff))
    case "violet" => Some(RGBA(0xee, 0x82, 0xee, 0xff))
    case "wheat" => Some(RGBA(0xf5, 0xde, 0xb3, 0xff))
    case "white" => Some(RGBA(0xff, 0xff, 0xff, 0xff))
    case "whitesmoke" => Some(RGBA(0xf5, 0xf5, 0xf5, 0xff))
    case "yellow" => Some(RGBA(0xff, 0xff, 0x00, 0xff))
    case "yellowgreen" => Some(RGBA(0x9a, 0xcd, 0x32, 0xff))
    case "off" => Some(RGBA(0x00, 0x00, 0x00, 0xff))
    case _ => None
  }

  /** Exact, case-sensitive lookup of a colour name: the table entry on a hit,
      an error naming the string on a miss. */
  function LookupColorName(s: string): (r: Result<RGBA>)
    ensures r.Ok? <==> ColorTable(s).Some?
    ensures r.Ok? ==> r.value == ColorTable(s).value && r.value.a == 0xff
    ensures r.Err? ==> r.error == InvalidColor(s)
  {
    match ColorTable(s)
    case Some(c) => Ok(c)
    case None => Err(InvalidColor(s))
  }

  /** "off" and "black" both resolve to the colour the tool uses for off. */
  lemma OffAndBlackAreColorOff()
    ensures LookupColorName("off") == Ok(COLOR_OFF)
    ensures LookupColorName("black") == Ok(COLOR_OFF)
  {
  }

  /** Lookup is exact: "red" and "blue" resolve to their keyword colours. */
  lemma KeywordsResolve()
    ensures LookupColorName("red") == Ok(RGBA(0xff, 0x00, 0x00, 0xff))
    ensures LookupColorName("blue") == Ok(RGBA(0x00, 0x00, 0xff, 0xff))
  {
  }

  /** Lookup is case-sensitive: a capitalised keyword is an error. */
  lemma CapitalisedKeywordFails()
    ensures LookupColorName("Red") == Err(InvalidColor("Red"))
  {
  }
}
