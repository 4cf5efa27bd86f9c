/** internal/mockspec/mimetypes: the content-type names the recorder knows and the
    extension lookup table. */
module MimeTypes {

  const ContentTypeJSON := "application/json"
  const ContentTypeHTML := "text/html"
  const ContentTypePlain := "text/plain"
  const ContentTypeXML := "application/xml"
  const ContentTypeFormURLEncoded := "application/x-www-form-urlencoded"
  const ContentTypeMultipart := "multipart/form-data"
  const ContentTypeJavaScript := "application/javascript"
  const ContentTypeOctetStream := "application/octet-stream"
  const ContentTypePNG := "image/png"
  const ContentTypeJPEG := "image/jpeg"
  const ContentTypeGIF := "image/gif"
  const ContentTypeCSV := "text/csv"
  const ContentTypePDF := "application/pdf"
  const ContentTypeZIP := "application/zip"
  const ContentTypeSVG := "image/svg+xml"
  const ContentTypeWebP := "image/webp"

  /** Every declared content-type constant. */
  const ContentTypes: set<string> := {
    ContentTypeJSON, ContentTypeHTML, ContentTypePlain, ContentTypeXML,
    ContentTypeFormURLEncoded, ContentTypeMultipart, ContentTypeJavaScript,
    ContentTypeOctetStream, ContentTypePNG, ContentTypeJPEG, ContentTypeGIF,
    ContentTypeCSV, ContentTypePDF, ContentTypeZIP, ContentTypeSVG, ContentTypeWebP }

  const ExtensionToContentType: map<string, string> := map[
    ".json" := ContentTypeJSON,
    ".html" := ContentTypeHTML,
    ".txt" := ContentTypePlain,
    ".xml" := ContentTypeXML,
    ".js" := ContentTypeJavaScript,
    ".png" := ContentTypePNG,
    ".jpg" := ContentTypeJPEG,
    ".jpeg" := ContentTypeJPEG,
    ".gif" := ContentTypeGIF,
    ".csv" := ContentTypeCSV,
    ".pdf" := ContentTypePDF,
    ".zip" := ContentTypeZIP,
    ".svg" := ContentTypeSVG,
    ".webp" := ContentTypeWebP ]

  /** The content type registered for a known extension. */
  function ContentTypeFor(ext: string): (ct: string)
    requires ext in ExtensionToContentType
    ensures ct in ContentTypes
    ensures ct !in {ContentTypeFormURLEncoded, ContentTypeMultipart, ContentTypeOctetStream}
    ensures |ext| > 1 && ext[0] == '.'
  {
    ExtensionToContentType[ext]
  }

  /** The table is not injective: two extensions share the JPEG type. */
  lemma JpegSharesType()
    ensures ".jpg" != ".jpeg"
    ensures ExtensionToContentType[".jpg"] == ExtensionToContentType[".jpeg"] == ContentTypeJPEG
  {
  }

  /** `.json` maps to the one content type the recorder persists. */
  lemma JsonExtension()
    ensures ExtensionToContentType[".json"] == ContentTypeJSON == "application/json"
  {
  }
}
