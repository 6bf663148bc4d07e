/** Plain data holders shared by the canvas engine: geometry values, bitmaps,
    canvas items, and the load-pipeline states. They carry no behaviour. */
module Models {

  datatype Option<+T> = None | Some(value: T)

  /** A point or a displacement in pixels (Compose's `Offset`). */
  datatype Offset = Offset(x: real, y: real) {
    function Plus(o: Offset): Offset { Offset(x + o.x, y + o.y) }
  }

  const Zero: Offset := Offset(0.0, 0.0)

  /** A width and height in pixels. */
  datatype Size = Size(width: real, height: real)

  /** Compose's `IntRect`: integer edges, `width = right - left`. */
  datatype IntRect = IntRect(left: int, top: int, right: int, bottom: int) {
    function Width(): int { right - left }
    function Height(): int { bottom - top }
  }

  /** A pixel dimension of a decoded bitmap: always at least one pixel. */
  type PixelCount = n: int | n >= 1 witness 1

  /** A decoded raster. Only its dimensions matter to the engine; `handle`
      stands for the pixel buffer, so two bitmaps of the same size may differ. */
  datatype Bitmap = Bitmap(handle: nat, width: PixelCount, height: PixelCount)

  /** The identifier of a canvas item; it stands for the random UUID string. */
  datatype Id = Uuid(serial: nat)

  /** A placed image on the canvas. */
  datatype CanvasImage = CanvasImage(
    id: Id,
    bitmap: Bitmap,
    offset: Offset,            // top-left corner of the frame, canvas-local
    userScale: real,           // zoom of the content inside the fixed frame
    imageTranslation: Offset   // pan of the content relative to the frame centre
  )

  /** Domain image: the bitmap is nullable in the domain type. */
  datatype Image = Image(bitmap: Option<Bitmap>)

  datatype ImageResponse = ImageResponse(images: seq<Image>)

  /** Data-layer transfer objects. */
  datatype ImageDto = ImageDto(image: Bitmap)

  datatype ImageResponseDto = ImageResponseDto(images: seq<ImageDto>)

  /** The three states the load pipeline emits. */
  datatype DataState = Success(data: ImageResponse) | Error(message: string) | Loading

  /** What the screen renders: a spinner, an error text, or the content. */
  datatype CarouselUiState = CarouselUiState(loading: bool, images: seq<Image>, error: Option<string>)

  /** `CarouselUiState()` with every default. */
  const InitialUiState: CarouselUiState := CarouselUiState(false, [], None)
}
