/** Conversion of the data layer's transfer objects into domain images. */
module ImageMappers {
  import opened Models

  /** `ImageDto.toDomain`: the bitmap is copied into the (nullable) domain field. */
  function ImageToDomain(dto: ImageDto): (img: Image)
    ensures img.bitmap == Some(dto.image)
  {
    Image(Some(dto.image))
  }

  /** The list `map` over `ImageDto.toDomain`, one element at a time. */
  function MapToDomain(dtos: seq<ImageDto>): (images: seq<Image>)
    ensures |images| == |dtos|
    ensures forall i :: 0 <= i < |dtos| ==> images[i] == ImageToDomain(dtos[i])
  {
    if dtos == [] then [] else [ImageToDomain(dtos[0])] + MapToDomain(dtos[1..])
  }

  /** `ImageResponseDto.toDomain`. */
  function ResponseToDomain(response: ImageResponseDto): (r: ImageResponse)
    ensures |r.images| == |response.images|
    ensures forall i :: 0 <= i < |r.images| ==> r.images[i].bitmap == Some(response.images[i].image)
  {
    ImageResponse(MapToDomain(response.images))
  }

  /** Every mapped image carries a bitmap, so the carousel's `bitmap!!` never fails on them. */
  lemma MappedImagesHaveBitmaps(response: ImageResponseDto)
    ensures forall img :: img in ResponseToDomain(response).images ==> img.bitmap.Some?
  {
    var r := ResponseToDomain(response);
    forall img | img in r.images ensures img.bitmap.Some? {
      var i :| 0 <= i < |r.images| && r.images[i] == img;
    }
  }

  /** Mapping commutes with concatenation: a response split in two maps to
      the two mapped halves, in the same order. */
  lemma {:induction false} MapToDomainAppend(a: seq<ImageDto>, b: seq<ImageDto>)
    ensures MapToDomain(a + b) == MapToDomain(a) + MapToDomain(b)
  {
    if a != [] {
      assert (a + b)[1..] == a[1..] + b;
      MapToDomainAppend(a[1..], b);
    }
  }

  lemma EmptyResponseMapsToEmpty()
    ensures ResponseToDomain(ImageResponseDto([])) == ImageResponse([])
  {
  }
}
