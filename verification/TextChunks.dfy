/** A chunk of a memory document: its text and the range of lines it records. */
module TextChunks {
  datatype TextChunk = TextChunk(text: string, startLine: nat, endLine: nat)
}
