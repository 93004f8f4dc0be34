# compilers_sandbox core, modelled in Dafny

This project models the C core of the compilers_sandbox repository. That core has five parts:

- **The lexer's double-buffered source reader** (`bufferReader.c`). The buffer holds 2N bytes and is used as two halves of N bytes. A read cursor walks the buffer modulo 2N. Each half is refilled with `fread` when the cursor enters it. A 0 byte written after a short read marks the end of the file.
- **The interning symbols table** (`symbolsTable.c`). It is a list of (id, name) entries. A name not seen before is appended with the next id. A name already present gets back the id it was first given.
- **The HTTP response creator** (`responseCreator.c`). It records a status code and a content type and collects content chunks. It renders the fixed header followed by the chunks and a final CRLF.
- **The compiler server without its sockets** (`server.c`). This covers parsing a received request into method, path and content; a route table of two slots; and first-match routing with a 404 JSON fallback.
- **The server runner** (`serverRunner.c`). This covers the name of every token type, and the `/lexer` route, which answers with a JSON array holding one object per token.

Each module is one file:

| file | module | models |
|---|---|---|
| `text.dfy` | `Text` | what the C library calls used by the core do on strings: `strcat`, the C string of a buffer, `strstr`, `%u`/`%d`, and `sprintf` with a fixed format |
| `buffer_reader.dfy` | `BufferReader` | `bufferReader.c` |
| `symbols_table.dfy` | `SymbolsTable` | `symbolsTable.c` |
| `response_creator.dfy` | `ResponseCreator` | `responseCreator.c` |
| `server.dfy` | `Server` | `server.c` |
| `server_runner.dfy` | `ServerRunner` | `serverRunner.c`, `lexer.h` |

Modelling choices:
- **Objects the C code updates in place become classes.** The reader, the table, the creator and the server each become a class with the same fields. Each has a `Valid()` invariant, and methods whose contracts give the whole new state.
- **The reader's buffer is an `array`.** Its file is the contents `source` plus a read offset.
- **Pure code becomes functions:** request parsing, route resolution, response rendering and token naming. Each such function is tied to a partner by an all-inputs lemma:
  - decoding is the partner of encoding;
  - the first-match property is the partner of resolution;
  - reading back the status code and the content is the partner of rendering.
- **The token stream is a parameter.** `lexer.c` is only a stub: it defines no `lexer_hasNext` and does no scanning. So the `/lexer` route takes the token stream as a parameter, and the model claims nothing about how it is scanned.

## Model

| member | source | states |
|---|---|---|
| BufferReader.Mod | lexer/bufferReader/bufferReader.c:55-62 | `BR_mod` is `a % b`, in `[0, b)`; the branch for a negative remainder is dead for unsigned operands |
| BufferReader.ModStep | lexer/bufferReader/bufferReader.c:95 | advancing a cursor inside `[0, 2N)` by one modulo 2N wraps to 0 only from the last position |
| BufferReader.Reader.constructor | lexer/bufferReader/bufferReader.c:64-80 | after init both cursors are 0 and the next refill goes to the second half; the first half holds the first min(N, L) file bytes, with a 0 at index L when L < N; the reader invariant holds |
| BufferReader.Reader.LoadChunk | lexer/bufferReader/bufferReader.c:38-53 | reads min(N, remaining) bytes into the half `loadFirstPart` selects; writes 0 right after a short read; changes no other byte of either half; toggles `loadFirstPart`; re-establishes the reader invariant when called at a half boundary |
| BufferReader.Reader.IsEof | lexer/bufferReader/bufferReader.c:88-90 | end of file is reported exactly when every byte has been consumed or the next file byte is itself 0 |
| BufferReader.Reader.MoveNext | lexer/bufferReader/bufferReader.c:92-101 | returns the next file byte in order and advances `endPtr` modulo 2N; a refill (the `loadFirstPart` toggle) happens exactly when the new `endPtr` is 0 or N; otherwise the buffer and the file offset are untouched; a refill rewrites only the half just entered, so the half just left keeps its bytes; the invariant (`endPtr < 2N`, `loadFirstPart` iff `endPtr >= N`, the window of file bytes) is kept |
| BufferReader.ReadToEnd | lexer/bufferReader/bufferReader.c:88-101 | for a file without 0 bytes, calling `moveNext` until `isEOF` returns exactly the file, in order |
| SymbolsTable.LookupSpec | symbolsTable/symbolsTable.c:29-40 | in a well-formed table the lookup gives 0 exactly for absent names, and otherwise the id of the one entry holding the name |
| SymbolsTable.InternPresent | symbolsTable/symbolsTable.c:93-97 | a name already present returns its stored id and leaves the table unchanged |
| SymbolsTable.InternAbsent | symbolsTable/symbolsTable.c:42-100 | a new name is appended at the tail with id counter + 1; that id is returned and the counter advances |
| SymbolsTable.InternValid | symbolsTable/symbolsTable.c:42-100 | interning keeps ids 1..n in list order and names distinct; the returned id is the entry holding the name |
| SymbolsTable.InternIdempotent | symbolsTable/symbolsTable.c:93-100 | interning the same name twice returns the same id and the second call changes nothing |
| SymbolsTable.InternDistinct | symbolsTable/symbolsTable.c:93-100 | two different names get different ids |
| SymbolsTable.FirstIdIsOne | symbolsTable/symbolsTable.c:48-77 | the first name interned in a fresh table gets id 1 |
| SymbolsTable.InternAllFirstSeen | symbolsTable/symbolsTable.c:42-100 | after interning a sequence of names, the table holds the distinct names in order of first appearance, so ids follow that order |
| SymbolsTable.Table.constructor | symbolsTable/symbolsTable.c:68-77 | a fresh table is empty with counter 0 |
| SymbolsTable.Table.FindByName | symbolsTable/symbolsTable.c:29-40 | the head-to-tail search returns the id of the first entry with that name, or 0; in a valid table, 0 means exactly that the name is absent |
| SymbolsTable.Table.Add | symbolsTable/symbolsTable.c:42-66 | increments the counter and appends (counter, name) at the tail; returns the new id |
| SymbolsTable.Table.GetIdOrAddSymbol | symbolsTable/symbolsTable.c:93-100 | the new contents and the returned id are those of `Intern`, and the table stays valid |
| ResponseCreator.ContentTypeText | extras/server/responseCreator/responseCreator.c:95-101 | HTML gives `text/html` and JSON gives `application/json` |
| ResponseCreator.StatusText | extras/server/responseCreator/responseCreator.c:103-107 | the reason is `NOT FOUND` exactly for 404, and `OK` for every other code |
| ResponseCreator.HeaderLinesAreLines | extras/server/responseCreator/responseCreator.c:87-93 | the five header lines are non-empty and hold no CR, LF or NUL |
| ResponseCreator.RenderIsCString | extras/server/responseCreator/responseCreator.c:86-134 | a rendered response holds no NUL, so `strlen` sees all of it |
| ResponseCreator.HeaderEndsAtFirstBlankLine | extras/server/responseCreator/responseCreator.c:87-93 | the first CRLF CRLF of a response is the one that ends the header, whatever content follows |
| ResponseCreator.RenderedContent | extras/server/responseCreator/responseCreator.c:110-129 | the text after the header's first CRLF CRLF is the chunks joined in order, then CRLF |
| ResponseCreator.StatusCodeRoundTrip | extras/server/responseCreator/responseCreator.c:88-110 | reading the digits after `HTTP/1.1 ` gives back the creator's status code |
| ResponseCreator.HeaderFits | extras/server/responseCreator/responseCreator.c:109-110 | the formatted header is always shorter than the 255-byte `headerStr` |
| ResponseCreator.Creator.constructor | extras/server/responseCreator/responseCreator.c:31-44 | the creator starts with the given type and code, no chunks and size 0 |
| ResponseCreator.Creator.AppendContent | extras/server/responseCreator/responseCreator.c:60-84 | a copy of the string becomes the last chunk; `contentSize` grows by its length; code and type stay as they were |
| ResponseCreator.Creator.JoinContent | extras/server/responseCreator/responseCreator.c:112-122 | the `strcat` loop gives the chunks joined in list order, then CRLF |
| ResponseCreator.Creator.GetResponse | extras/server/responseCreator/responseCreator.c:86-134 | the response is the header for the creator's code and type, followed by the joined content; its length is the header's plus `contentSize` plus 2 for the final CRLF |
| Server.MethodOf | extras/server/server.c:57-64 | GET exactly for `GET`, POST exactly for `POST`, and OTHER for everything else |
| Server.FirstSpace | extras/server/server.c:48-76 | the first space at or after a position |
| Server.GetRequestHttpMethod | extras/server/server.c:43-70 | the method is classified from the bytes before the first space; `requestPtr` ends just after that space |
| Server.GetRequestPath | extras/server/server.c:72-85 | the path is the bytes from `requestPtr` up to the next space |
| Server.RequestContent | extras/server/server.c:87-100 | the content is everything after the first CRLF CRLF of the request's C string |
| Server.ParseRequest | extras/server/server.c:102-118 | the parsed request holds the method of the first token, the path of the second, and the content after the blank line |
| Server.RequestLineRoundTrip | extras/server/server.c:43-85 | a request starting `<m> <path> ` parses back to the method `m` names and to `path` |
| Server.RequestBodyParsed | extras/server/server.c:87-100 | for header lines followed by an empty line and a body, the content parsed is exactly the body |
| Server.ContentOfRenderedResponse | extras/server/server.c:87-100 | content parsing applied to a rendered response gives the creator's chunks joined, then CRLF |
| Server.Resolve | extras/server/server.c:126-129 | the first route whose method and path both equal the request's, and none when no route does |
| Server.UnmatchedIsNotFound | extras/server/server.c:139-144 | a request no route matches is answered with status 404 |
| Server.EarlierRouteWins | extras/server/server.c:126-136 | the first matching route answers, even when a later route matches too |
| Server.Server.constructor | extras/server/server.c:158-171 | a fresh server has the given port and no routes |
| Server.Server.AddRoute | extras/server/server.c:183-199 | with a free slot, the route is appended after the earlier ones; with both slots taken, the call fails and no route changes |
| Server.Server.SolveRouteAndGetResponse | extras/server/server.c:125-145 | the response is the rendering of the first matching route's callback result, or the 404 JSON response |
| ServerRunner.TokenTypeNameRoundTrip | serverRunner.c:117-199 | every one of the 40 token types is mapped to a capital-letter enumerator name, and reading that name back gives the same token type |
| ServerRunner.TokenTypeNameInjective | serverRunner.c:117-199 | distinct token types have distinct names |
| ServerRunner.TokenJsonRoundTrip | serverRunner.c:45-83 | a token's object reads back in order as: its type's name; start line, start column, end line, end column; and its attribute, which is the `%d` value for every type except float numbers |
| ServerRunner.TokenTypeName | serverRunner.c:117-199 | `getTokenTypeAsString`: every token type has a name, which starts with its group's letter (I, V, R, S, O or C, as listed in `lexer.h`) and an underscore |
| ServerRunner.AttrText | serverRunner.c:74-78 | the attribute text of a float-number token is its `%f` text, unchanged; for every other token it is the `%d` numeral of `INT_ATTR` (read back in `TokenFieldsReadBack`) |
| ServerRunner.TokenFields | serverRunner.c:80-83 | the `sprintf` arguments number six: first the type's name, last the attribute text, with the four position numerals between |
| ServerRunner.TokenFieldsReadBack | serverRunner.c:74-83 | each argument reads back as what it was made from: the first as the token type; the next four as start line, start column, end line and end column, in that order; the last as `FLOAT_ATTR`'s text for float numbers and as `INT_ATTR` otherwise |
| ServerRunner.TokenJson | serverRunner.c:45-83 | the object written into `buff`: the template's literal pieces with the six argument texts in their conversions, and no NUL inside (it is a C string); what it says is stated in `TokenJsonRoundTrip` and `TokenJsonBraces` |
| ServerRunner.TokenJsonBraces | serverRunner.c:45-59 | each token's object opens with `{` and closes with `}` |
| ServerRunner.AppendObject | serverRunner.c:85-88 | one pass of the loop appends the object, then a comma exactly when the lexer has more tokens; the status code and content type are kept |
| ServerRunner.RouteChunksLayout | serverRunner.c:69-91 | the route appends `[`, then the objects in stream order with a `,` only between two of them, then `]` |
| ServerRunner.RouteBody | serverRunner.c:69-91 | the appended chunks join to the JSON array `[o1,...,on]` of the objects |
| ServerRunner.EmptyStreamBody | serverRunner.c:69-91 | an empty token stream gives `[]` |
| ServerRunner.NoTrailingComma | serverRunner.c:69-91 | a non-empty body ends by closing its last object and then the array, so it has no trailing comma |
| ServerRunner.LexerRoute | serverRunner.c:67-91 | the loop leaves a fresh, valid 200 JSON creator holding exactly those chunks |
| ServerRunner.LexerResponse | serverRunner.c:67-91 | the route's response has status 200, and its content is the JSON array of the token objects, then CRLF |
| Text.Find | extras/server/server.c:88 | `strstr`: the first occurrence of the pattern, or none when there is no occurrence |
| Text.CStr | extras/server/server.c:82 | the C string of a buffer: the bytes before the first NUL |
| Text.ConcatLength | extras/server/responseCreator/responseCreator.c:68-120 | joining chunks neither drops nor adds characters, so `contentSize` is the content's length |
| Text.DecimalRoundTrip | extras/server/responseCreator/responseCreator.c:110 | the `%u` numeral of `n` reads back as `n` |
| Text.ParseIntRoundTrip | serverRunner.c:78-83 | a `%d` numeral consists of digits and at most a leading `-`, and reads back as its value |
| Text.FormatRoundTrip | serverRunner.c:80-83 | what `sprintf` writes for a fixed format reads back to the conversions' texts, provided no conversion's text contains the first character of the literal after it |
| Text.UnformatSound | serverRunner.c:80-83 | any text read back against a format is exactly what `sprintf` writes for the texts obtained |

## Left out

- `lexer/lexer.c`, `lexer/main.c` and `main.c` are not part of this model:
  - `lexer.c` is a stub that does not match `lexer.h`;
  - `lexer_hasNext` is declared but defined nowhere;
  - `main.c` uses token names that `lexer.h` does not declare.
- The `/lexer` route takes the token stream as a parameter. Scanning the request's content into tokens is not modelled, and neither is the temporary file it goes through (`createTempCodeFile`, `remove`).
- ServerRunner.Token: `FileLocation` is not declared in any header shown, so positions are modelled as pairs of `int` printed with `%d`.
- ServerRunner.AttrText: the text `%f` makes of `FLOAT_ATTR` is taken as given, because floating point is not modelled. For float-number tokens the read-back only claims that this text comes back unchanged.
- ServerRunner.LexerRoute: the token object is written into the 255-byte `buff`. The model assumes it fits; the overflow for a longer object is not modelled.
- Sockets and process control are not modelled, because they are I/O:
  - `server_start`;
  - `SV_handleRequest` with its `write` of `strlen - 1` bytes, which drops the response's last byte;
  - the `read` in `SV_parseRequest` (ParseRequest takes the received bytes);
  - `intHandler`, `main` and the `*_free` functions.
- Server.GetRequestHttpMethod and Server.GetRequestPath require a space after the token. The C loops run past the buffer without one, which is undefined behaviour.
- Server.RequestContent requires a CRLF CRLF in the request. Without one, `strstr` gives NULL and the C code adds 4 to it, which is undefined behaviour. Its `requestLen` argument and the `malloc` sized from it (server.c:91-97) only size a buffer, so they are not modelled. The content is what `strcpy` copies.
- Server.Server.AddRoute: `exit(1)` when both slots are taken becomes a `false` result with the routes unchanged.
- Server.Route: the callback function pointer becomes an opaque id. What a callback answers is a parameter `handler` of the routing functions.
- ResponseCreator.ContentTypeText: the `plain/text` fallback is unreachable, because `enum content_type` has only HTML and JSON.
- ResponseCreator.Creator.GetResponse: the undersized result buffer (responseCreator.c:124-129) is not modelled. `responseSize` leaves room for the header, `contentSize` bytes and the NUL. The contract shows the response is 2 bytes longer than that, because of the final CRLF, so `strcat` writes past the end. The model returns the whole text.
- SymbolsTable.Table.Add: the name copy is allocated one byte short (symbolsTable.c:45). This is not modelled. The walk to the tail of the list becomes an append to a sequence; ResponseCreator.Creator.AppendContent is modelled the same way. Aliasing of list nodes is not modelled.
- SymbolsTable.Table.Add: `idCounter` is a C `int` and ids are `size_t`, but the model uses unbounded naturals, so overflow after 2^31 - 1 symbols is not modelled.
- BufferReader.Reader.MoveNext requires a byte to remain, and claims nothing about calls after the end of the file.
- BufferReader: the file is its contents. `fread` always delivers min(N, remaining) bytes; read errors, file opening (`BR_openFileAsReadOrExitWithError`) and closing are not modelled. The unused `startPtr` is only initialised.
- Allocation failures are not modelled. The `*_mallocOrExitWithError` helpers are assumed to succeed.
