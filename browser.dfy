/** The browser's `File` as the upload handlers see it. Reading it (FileReader,
    pdf.js, mammoth, SheetJS) is done by foreign code, which the handlers take
    as function parameters over this value. */
module Browser {

  /** An uploaded file: its name and its bytes. */
  datatype UploadedFile = UploadedFile(name: string, bytes: seq<bv8>)
}
