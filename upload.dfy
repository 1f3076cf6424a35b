/**
 * The pure checks and naming rules of the upload endpoint: which MIME types
 * are accepted, the size ceiling, the file extension and the storage blob
 * name of a new document.
 */
module Upload {
  import opened Wrappers
  import opened Text

  /** The MIME types the endpoint accepts: PDF, DOC and DOCX. */
  const AllowedTypes: seq<string> := [
    "application/pdf",
    "application/msword",
    "application/vnd.openxmlformats-officedocument.wordprocessingml.document"
  ]

  /** The largest accepted content, in bytes: 10 MiB. */
  const MaxUploadBytes: nat := 10 * 1024 * 1024

  /** Why an upload is refused before anything is stored. */
  datatype UploadRejection = UnsupportedType | TooLarge

  /**
   * The two checks of the upload endpoint, in the order it makes them: the
   * declared MIME type first, then the size of the content read.
   */
  function ValidateUpload(contentType: string, size: nat): (r: Option<UploadRejection>)
    ensures r == Some(UnsupportedType) <==> contentType !in AllowedTypes
    ensures r == Some(TooLarge) <==> contentType in AllowedTypes && size > MaxUploadBytes
    ensures r == None <==> contentType in AllowedTypes && size <= MaxUploadBytes
  {
    if contentType !in AllowedTypes then Some(UnsupportedType)
    else if size > MaxUploadBytes then Some(TooLarge)
    else None
  }

  /** Exactly 10 MiB passes the size check; one byte more does not. */
  lemma SizeBoundary()
    ensures ValidateUpload("application/pdf", 10485760) == None
    ensures ValidateUpload("application/pdf", 10485761) == Some(TooLarge)
  {
  }

  /** The extension of an uploaded file: the lower-cased last '.'-separated piece of its name. */
  function FileExtension(fileName: string): (r: string)
    ensures '.' !in r
    ensures |r| <= |fileName|
    ensures r == Lower(fileName[|fileName| - |r|..])
    ensures |r| < |fileName| ==> fileName[|fileName| - |r| - 1] == '.'
    ensures '.' !in fileName ==> r == Lower(fileName)
  {
    var piece := AfterLastDot(fileName);
    assert '.' !in fileName ==> |piece| == |fileName|;
    Lower(piece)
  }

  /** The storage path of a new document: `uploads/<id>.<ext>`. */
  function BlobName(documentId: string, fileName: string): (r: string)
    ensures IsPrefix("uploads/" + documentId + ".", r)
    ensures r[|"uploads/" + documentId + "."|..] == FileExtension(fileName)
  {
    "uploads/" + documentId + "." + FileExtension(fileName)
  }

  /** Where the identifier and the separating dot sit inside a blob name. */
  lemma BlobLayout(id: string, ext: string)
    ensures ("uploads/" + id + "." + ext)[8 + |id|] == '.'
    ensures forall k | 0 <= k < |id| :: ("uploads/" + id + "." + ext)[8 + k] == id[k]
  {
  }

  /** Two documents with different dot-free identifiers get different blob names. */
  lemma {:induction false} BlobNamesDistinct(id1: string, id2: string, name1: string, name2: string)
    requires '.' !in id1 && '.' !in id2
    requires BlobName(id1, name1) == BlobName(id2, name2)
    ensures id1 == id2
  {
    BlobLayout(id1, FileExtension(name1));
    BlobLayout(id2, FileExtension(name2));
    var b := BlobName(id1, name1);
    if |id1| == |id2| {
      assert b[8..8 + |id1|] == id1;
      assert b[8..8 + |id2|] == id2;
    }
  }
}
