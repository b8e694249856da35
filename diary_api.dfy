/** The diary-creation request that both diary forms send. */
module DiaryApi {
  import opened Browser
  import opened JsText

  /** A JSON scalar as `axios` serialises it: a JavaScript number (a NaN
      goes out as `null`) or a string. */
  datatype JsonScalar = JsonNumber(number: NumberValue) | JsonString(text: string)

  /** Body of `POST /api/folder/create`. The editor page sends `folder_id`
      as a number read from its route; the creation dialog passes on the
      route text it was given, so there it is a string. */
  datatype DiaryPayload = DiaryPayload(
    folderId: JsonScalar,
    title: string,
    content: string,
    photos: seq<string>,
    theme: Option<string>,
    location: Option<LatLng>)
}
