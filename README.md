# dicom-python worklist tools, modelled in Dafny

This project models the DICOM Modality Worklist toolkit of `dicom-python`
and proves properties of the model. It covers:

- the worklist item builders: the DIMSE one, the Orthanc REST one, the JSON
  sample loader and the two text-file converters;
- the C-FIND query template and the datasets the PS3.4 C.2.2.2 matching
  rules let it select;
- the response-collection loops;
- the C-ECHO and C-STORE control flow against an abstract peer: which
  requests are sent, when the association is released, and what is returned
  or raised;
- the dataset-to-dict projection with its UTF-8 `ignore` decoding;
- the JSON display and the REST "simplified" projections;
- the Orthanc REST result rules;
- the two command-line front ends and their exit codes;
- the secondary-capture image builder, with its even-length pixel padding
  and the upload overrides.

A dataset is a value (`DataSets.DataSet`): a map from data-dictionary tag to
value, plus the plain attributes pydicom keeps for names that are not
dictionary keywords. A file is the record pydicom's `FileDataset` is given
before `save_as`: the preamble, the meta information, the body and the
encoding flags. Three things are injected rather than modelled:

- `generate_uid` is a UID generator (`Uids.UidGen`) whose draws are distinct
  when it is `Fresh`;
- the clock readings are parameters;
- the network is an oracle. `Association.Peer` answers association, echo,
  find and store. `OrthancRest.Orthanc` answers the HTTP calls.

Methods return the trace of requests they sent, and the `Association` class
records that trace as it goes.

Modules follow the source files:

| module | source |
|---|---|
| `DataSets`, `FileFormat`, `Uids`, `Association`, `Matching`, `TextUtil`, `Wrappers` | the shared data model |
| `DicomCommunication` | tools/dicom_communication.py |
| `WorklistManager` | tools/worklist_manager.py |
| `OrthancRest` | worklist.py |
| `DicomUtils`, `Utf8` | tools/utils.py |
| `MwlConverter` | tools/mwl_converter.py |
| `DicomTools` | dicom_tools.py |
| `WorklistCli` | worklist_cli.py |
| `MainImage` | main.py |

dicom_tools.py repeats `extract_value`, `convert_request_to_dcm`,
`convert_response_to_dcm` and `c_echo` from the `tools` package, character
for character. The one difference is that its `c_echo` has no default calling
AE title. So these are modelled once, in `MwlConverter` and in
`DicomCommunication.CEcho`. `DicomTools` holds what is its own: `main`.

## Model

| member | source | states |
|---|---|---|
| DataSets.Get | tools/worklist_manager.py:280-284 | a lookup finds a value exactly when the dataset has the element, as `getattr(ds, keyword, default)` takes its default only for an absent one |
| DataSets.PutGet | tools/worklist_manager.py:61-101 | assigning `ds.Keyword = v` makes the element read back as `v`, leaves every other element as it was, and adds exactly that tag |
| DataSets.PutAttr | tools/mwl_converter.py:95 | assigning a name that is not a dictionary keyword changes no element and records only a plain attribute |
| DataSets.PutWellFormed | tools/utils.py:43-46 | an assignment keeps a dataset well formed (sequences only under SQ tags, nested items well formed), which the projection relies on |
| FileFormat.Zeros | tools/worklist_manager.py:131 | `b"\0" * n` has length n and every byte zero |
| Uids.SkipAt | tools/worklist_manager.py:79-101 | after k calls to `generate_uid`, the j-th value from then on is the (k + j)-th value from before |
| Uids.SkipSkip | tools/worklist_manager.py:210-251 | a calls followed by b calls draw as a + b calls do |
| Uids.SkipFresh | tools/worklist_manager.py:210-251 | a fresh generator stays fresh after k calls, and no later draw repeats one of the k earlier ones |
| Association.Association.Associate | tools/dicom_communication.py:83 | opening an association sends exactly one association request whose calling AE, address, port, called AE and requested context are the arguments; it is established iff the peer accepts |
| Association.Association.SendCEcho | tools/dicom_communication.py:44 | an echo on an established association appends one echo request and returns the peer's echo status |
| Association.Association.SendCFind | tools/dicom_communication.py:124 | a find appends one find request carrying the query and the information model, and yields the peer's response stream for that query |
| Association.Association.SendCStore | tools/worklist_manager.py:169 | a store appends one store request carrying the file and returns the peer's store status |
| Association.Association.Release | tools/dicom_communication.py:133 | release appends one release request and leaves the association no longer established |
| Association.Releases | tools/dicom_communication.py:53 | the number of releases in a trace is at most its length, and zero exactly when no release was sent |
| DicomCommunication.SpsKeys | tools/dicom_communication.py:100-116 | the SPS item holds exactly StartDate, StartTime `""` and Modality; StartDate is `start-end` when both dates are truthy, `start` when only the start is, and `""` otherwise |
| DicomCommunication.DefaultQuery | tools/dicom_communication.py:89-118 | the default query holds exactly QueryRetrieveLevel `WORKLIST`, PatientName (`*` iff the name is None, otherwise verbatim), four universal keys and a one-item SPS sequence; Modality is not at top level |
| DicomCommunication.EndDateAloneIgnored | tools/dicom_communication.py:103-108 | without a truthy start date the end date has no effect on the query |
| DicomCommunication.DefaultQueryKeys | tools/dicom_communication.py:89-118 | a dataset matches the default query iff it matches the PatientName key and the SPS sequence key; the empty keys match everything |
| DicomCommunication.SequenceKeyMatches | tools/dicom_communication.py:118 | a one-item sequence key matches iff some item of the candidate's sequence matches that item (PS3.4 C.2.2.2.6) |
| DicomCommunication.SpsKeysMatch | tools/dicom_communication.py:100-116 | an SPS item matches the SPS keys iff it matches the date key and the modality key; the empty StartTime matches everything |
| DicomCommunication.UnfilteredItemMatches | tools/dicom_communication.py:107-116 | with no dates and no modality every SPS item matches |
| DicomCommunication.DateRangeItemMatches | tools/dicom_communication.py:103-104 | with both dates the SPS item matches iff its StartDate lies in the closed range (PS3.4 C.2.2.2.5) |
| DicomCommunication.DateKeyRange | tools/dicom_communication.py:103-104 | for non-empty dates with no `-` in the start date, the joined `start-end` StartDate key matches a candidate iff the candidate lies in the range from start to end |
| DicomCommunication.ModalityItemMatches | tools/dicom_communication.py:113-114 | with a modality free of wildcards the SPS item matches iff its Modality equals it |
| DicomCommunication.UnfilteredQueryMatchesAll | tools/dicom_communication.py:93 | the query with no filters selects exactly the datasets that have at least one SPS item |
| DicomCommunication.DateRangeQueryMatches | tools/dicom_communication.py:103-104 | the date-range query selects exactly the datasets with an SPS item whose StartDate lies in the range |
| DicomCommunication.ModalityQueryMatches | tools/dicom_communication.py:113-114 | the modality query selects exactly the datasets with an SPS item of that modality |
| DicomCommunication.PatientQueryMatches | tools/dicom_communication.py:93 | a literal patient name selects exactly the datasets with that PatientName and at least one SPS item |
| DicomCommunication.QueryFor | tools/dicom_communication.py:169-200 | a supplied dataset is the query unchanged; otherwise the query is the default one |
| DicomCommunication.Found | tools/dicom_communication.py:124-131 | the collected list is no longer than the response stream and holds only non-empty datasets |
| DicomCommunication.FoundAppend | tools/dicom_communication.py:124-131 | collecting over a concatenated stream is the concatenation of the two collections, so arrival order is kept |
| DicomCommunication.FoundMembers | tools/dicom_communication.py:124-131 | a dataset is collected iff some response with a truthy status carries it as a non-empty identifier |
| DicomCommunication.FoundAllKept | tools/dicom_communication.py:124-131 | when every response is kept, the list has one dataset per response, in order |
| DicomCommunication.CollectFound | tools/dicom_communication.py:122-131 | the append loop computes exactly the collected list |
| DicomCommunication.CEcho | tools/dicom_communication.py:18-57 | it requests Verification, without a called AE iff `remote_ae` is empty; a refused association raises after one request; a falsy status raises without release; otherwise it releases once and returns the status |
| DicomCommunication.GetWorklist | tools/dicom_communication.py:59-136 | a refused association raises with no C-FIND sent; otherwise it sends the default query, releases once and returns the collected list |
| DicomCommunication.GetWorklistDataset | tools/dicom_communication.py:138-222 | as `GetWorklist`, but a supplied dataset is sent unchanged |
| DicomCommunication.FindWith | tools/dicom_communication.py:163-219 | the association, find and release sequence both query functions share |
| Matching.StarMatchesAll | tools/dicom_communication.py:93 | the `*` name key matches every value (PS3.4 C.2.2.2.4) |
| Matching.LiteralMatch | tools/dicom_communication.py:93 | a key without wildcards matches a value iff the two are equal |
| Matching.ParseRangeJoin | tools/dicom_communication.py:104 | `start-end` is read back as the range from start to end |
| Matching.ParseRangeSingle | tools/dicom_communication.py:106 | a single date is read back as a match on that date |
| TextUtil.Digit | tools/utils.py:55 | one decimal digit character, with the value it stands for |
| TextUtil.NatToString | tools/utils.py:55 | the decimal rendering of a length is non-empty, all digits, and one digit long iff the length is below 10 |
| TextUtil.NatToStringValue | tools/utils.py:55 | the decimal rendering reads back as the number |
| TextUtil.IntToString | tools/worklist_manager.py:280-294 | `str()` of an integer is non-empty and starts with `-` iff it is negative |
| TextUtil.ReplaceChar | tools/worklist_manager.py:144 | `str.replace` of one character keeps the length |
| TextUtil.ReplaceCharAt | tools/worklist_manager.py:144 | every occurrence of the character is replaced and every other position is kept |
| TextUtil.IndexOf | tools/dicom_communication.py:104 | the first occurrence of a character, or the length when there is none |
| TextUtil.IndexOfJoin | tools/dicom_communication.py:104 | in `a-b` with no `-` in `a`, the first `-` is at `len(a)` |
| Utf8.ValidPrefix | tools/utils.py:58 | each decoding step consumes between one and four bytes: a well-formed sequence or one maximal ill-formed subpart |
| Utf8.Decode | tools/utils.py:58 | `decode('utf-8', 'ignore')` yields at most one character per byte and never fails |
| Utf8.EncodeChar | tools/utils.py:58 | a character encodes to one to four bytes |
| Utf8.DecodeChar | tools/utils.py:58 | the encoding of a character is one well-formed sequence of its own length that decodes back to it |
| Utf8.DecodeTwo | tools/utils.py:58 | a two-byte encoding decodes back to its scalar value |
| Utf8.DecodeThree | tools/utils.py:58 | a three-byte encoding outside the surrogates decodes back to its scalar value |
| Utf8.DecodeFour | tools/utils.py:58 | a four-byte encoding decodes back to its scalar value |
| Utf8.DecodeEncode | tools/utils.py:58 | decoding the UTF-8 encoding of any text gives back that text |
| Utf8.DecodeAscii | tools/utils.py:58 | ASCII bytes decode to the same characters, one per byte |
| DicomUtils.DatasetToDict | tools/utils.py:40-65 | one key per element; an entry is a list exactly for a sequence element, and then it has one entry per item |
| DicomUtils.ProjectValue | tools/utils.py:43-64 | a value projects to a list exactly when it is a sequence, with one dict per item holding that item's keys |
| DicomUtils.ProjectItems | tools/utils.py:46 | the list comprehension projects each item with `dataset_to_dict`, in order |
| DicomUtils.SequenceProjection | tools/utils.py:43-46 | a non-None SQ value becomes the list of its items' projections, same length, same order |
| DicomUtils.NoneProjection | tools/utils.py:47-48 | a None value projects to None, SQ or not (also lines 63-64) |
| DicomUtils.PixelDataPlaceholder | tools/utils.py:54-55 | Pixel Data bytes become `[Binary data with length N bytes]`, where N reads back as the byte count; they are never decoded |
| DicomUtils.TextBytesProjection | tools/utils.py:56-60 | other bytes are UTF-8 decoded, so the encoding of a text projects back to that text; the placeholder fallback is never reached |
| DicomUtils.CopiedProjection | tools/utils.py:61-62 | strings and numbers are copied unchanged |
| DicomUtils.ProjectPut | tools/utils.py:40-65 | assigning an element changes the projection at that key only |
| WorklistManager.Attr | tools/worklist_manager.py:280-284 | `str(getattr(ds, keyword, default))`: the default when the element is absent; otherwise the stored string, the decimal rendering of a stored number, or empty text for any other value |
| WorklistManager.StepItem | tools/worklist_manager.py:72-80 | the SPS item holds exactly its eight elements with the given values |
| WorklistManager.OptionalAttributes | tools/worklist_manager.py:66-69 | each of the five optional elements takes its given value and is absent when none is given; no other element is set (also lines 91-98) |
| WorklistManager.CreatedAttributes | tools/worklist_manager.py:61-101 | it always sets SpecificCharacterSet `ISO_IR 100`, PatientName, PatientID, AccessionNumber, RequestedProcedureDescription, and RequestedProcedureID and StudyInstanceUID from the second and third UID draw |
| WorklistManager.CreatedStep | tools/worklist_manager.py:72-83 | exactly one SPS item: AE title from its own parameter, StationName from the station name, physician `""`, description as the requested one, and the first UID draw as step ID |
| WorklistManager.CreatedTags | tools/worklist_manager.py:58-101 | the created elements are the always-set ones plus some of the five optional ones, and nothing else |
| WorklistManager.CreatedOptionalPatient | tools/worklist_manager.py:66-69 | PatientBirthDate and PatientSex are present iff their argument is non-empty, and then hold it |
| WorklistManager.CreatedOptionalRequest | tools/worklist_manager.py:91-98 | ReferringPhysicianName, MedicalAlerts and ContrastAllergies are present iff their argument is non-empty, and then hold it |
| WorklistManager.CreatedIdentifiers | tools/worklist_manager.py:79-101 | with a fresh generator, step ID, RequestedProcedureID and StudyInstanceUID are pairwise distinct |
| WorklistManager.JsonItem | tools/worklist_manager.py:279-294 | the step fields appear iff the item has an SPS item; each of the five top-level fields (PatientName, PatientID, AccessionNumber, RequestedProcedureDescription, StudyInstanceUID) shows as `N/A` when missing |
| WorklistManager.JsonItems | tools/worklist_manager.py:277-296 | one displayed entry per item, in order |
| WorklistManager.DisplayJson | tools/worklist_manager.py:271-298 | nothing is shown iff the list is empty; otherwise it shows the projection of each item |
| WorklistManager.DisplayedFrom | tools/worklist_manager.py:279-294 | an item with those elements and one SPS item displays exactly those values |
| WorklistManager.DisplayCreated | tools/worklist_manager.py:19-105 | displaying a created item shows its arguments and its study UID |
| WorklistManager.CreatedMatchesDateRange | tools/worklist_manager.py:74 | a created item is selected by the date-range query iff its start date lies in the range |
| WorklistManager.CreatedMatchesModality | tools/worklist_manager.py:76 | a created item is selected by the modality query iff its modality is that one |
| WorklistManager.WorklistFileContents | tools/worklist_manager.py:125-137 | the file has a 128-zero-byte preamble, explicit VR little endian, the worklist SOP class and the given instance UID in its meta, both copied into the body; no other element changes |
| WorklistManager.Concat5 | tools/worklist_manager.py:146 | each part of a five-part concatenation can be read back |
| WorklistManager.StagedPathParts | tools/worklist_manager.py:144-146 | the path is `worklist/worklist_`, the name part, `_`, the accession (default: the clock reading), then `.dcm` |
| WorklistManager.NamePartReplaces | tools/worklist_manager.py:144 | the name part is the patient name (default `Unknown`) with every `^` replaced by `_`, and holds no `^` |
| WorklistManager.StoreFile | tools/worklist_manager.py:153-187 | the result is true iff the association is established and the store status is 0; release happens once on the established path only |
| WorklistManager.SendWorklistItem | tools/worklist_manager.py:107-190 | the caller's dataset afterwards is the framed file's body, holding the worklist SOP class and the generated instance UID, even when the save fails; a failed save yields false with nothing sent; otherwise it stages the framed file at its path, and the result and release follow the store rule |
| WorklistManager.SampleAttributes | tools/worklist_manager.py:214-240 | PatientName, PatientID, AccessionNumber and RequestedProcedureDescription take their JSON keys, default `""` |
| WorklistManager.SampleIdentifiers | tools/worklist_manager.py:229-251 | RequestedProcedureID and StudyInstanceUID take the second and third UID draw; no character set is set |
| WorklistManager.SampleStep | tools/worklist_manager.py:222-233 | one SPS item; `station` (default `STATION1`) feeds both AE title and StationName, and Modality defaults to `US` |
| WorklistManager.SampleOptionalPatient | tools/worklist_manager.py:216-219 | PatientBirthDate and PatientSex are present iff their key is |
| WorklistManager.SampleOptionalRequest | tools/worklist_manager.py:241-248 | ReferringPhysicianName, MedicalAlerts and ContrastAllergies are present iff their key is |
| WorklistManager.LoadEachSucceeds | tools/worklist_manager.py:210-258 | loading succeeds iff every entry is a JSON object |
| WorklistManager.LoadEachLength | tools/worklist_manager.py:210-253 | a successful load gives one dataset per entry |
| WorklistManager.LoadEachItemAt | tools/worklist_manager.py:210-253 | the i-th dataset is built from the i-th entry with the generator advanced by three draws per earlier entry |
| WorklistManager.LoadedItems | tools/worklist_manager.py:209-258 | the sample loader succeeds iff all entries are objects, and then yields one sample item per entry, in order |
| WorklistManager.LoadedUidsDistinct | tools/worklist_manager.py:229-251 | with a fresh generator, no two loaded items share a requested procedure ID or a study instance UID |
| WorklistManager.LoadSampleWorklists | tools/worklist_manager.py:192-258 | an unreadable file gives `[]`; otherwise the loop yields the loaded items, or `[]` on a failing entry |
| WorklistManager.LoadEachStep | tools/worklist_manager.py:210-253 | one loop step: a non-object entry fails; otherwise its item goes before the rest |
| WorklistManager.PrefixedAppend | tools/worklist_manager.py:253 | appending one item and then the rest is the same as prefixing with the longer list |
| WorklistManager.DisplaySample | tools/worklist_manager.py:279-294 | displaying a sample item shows its JSON fields with their defaults |
| OrthancRest.SameAsManager | worklist.py:12-96 | the REST builder is the manager builder with the station name as AE title |
| OrthancRest.CreatedStep | worklist.py:63-71 | exactly one SPS item, whose AE title and StationName are both the station name |
| OrthancRest.CreatedContents | worklist.py:50-92 | always-set elements and UID draws as in the manager; the optional elements are present iff their argument is non-empty |
| OrthancRest.AuthFor | worklist.py:139-141 | an auth pair is used iff both username and password are truthy, and then it is that pair (also lines 193-195, 283-285) |
| OrthancRest.FromReply | worklist.py:157-168 | success iff the reply is HTTP 200 and then its JSON body; a non-200 reply gives `error` and `status_code`; an exception gives `error` only |
| OrthancRest.UploadWorklistToOrthanc | worklist.py:98-168 | the upload's result follows the reply of the POST to `/instances` by the rule above |
| OrthancRest.UploadSends | worklist.py:127-155 | the POST carries the dataset as explicit VR little endian, to exactly `<orthanc_url>/instances`, with auth iff both credentials are truthy |
| OrthancRest.StepKeys | worklist.py:201-206 | one SPS key item per entry, holding exactly its StartDate |
| OrthancRest.RangeQueryKeys | worklist.py:198-214 | a dataset matches the REST query iff it matches its one-item sequence key; the five empty keys match everything |
| OrthancRest.RangeQueryAsGetWorklist | worklist.py:198-214 | with both dates, the REST query selects the same datasets as the DIMSE date-range query |
| OrthancRest.RangeItemAsSpsKeys | worklist.py:204 | the REST SPS item selects the same items as the DIMSE SPS keys for that range |
| OrthancRest.RangeQuerySelects | worklist.py:198-214 | the REST query selects exactly the datasets with an SPS item whose StartDate lies in the range |
| OrthancRest.Field | worklist.py:243-249 | `instance_data.get(key, "")` |
| OrthancRest.CollectedSucceeds | worklist.py:232-254 | collecting succeeds iff no instance fetch raises |
| OrthancRest.CollectedLength | worklist.py:232-254 | the output is no longer than the result list |
| OrthancRest.CollectedAppend | worklist.py:232-252 | collecting over a concatenation is the first collection followed by the second, so result order is kept |
| OrthancRest.CollectedMembers | worklist.py:234-252 | an item is in the output iff some result's fetch was HTTP 200 and it is that result's simplified item |
| OrthancRest.CollectedAllFetched | worklist.py:232-254 | when every fetch is HTTP 200 the output has one simplified item per result, in order, with `ID` the result |
| OrthancRest.GetWorklistsByDateRange | worklist.py:170-262 | it first posts the range query; an exception or a non-200 reply gives the error dict; otherwise it fetches each result's instance in turn and returns the collection |
| OrthancRest.CollectedStep | worklist.py:234-252 | one loop step: an exception ends the loop, a 200 adds the simplified item, anything else skips it |
| OrthancRest.PrefixedAssoc | worklist.py:252 | appending a part of the list and then the rest is the same as appending both together |
| OrthancRest.GetWorklistDetails | worklist.py:264-307 | the details follow the reply of the GET on the instance URL by the success and error rule |
| MwlConverter.SkipSpaces | tools/mwl_converter.py:195 | `\s*` skips the longest run of whitespace from a position |
| MwlConverter.LineEnd | tools/mwl_converter.py:195 | `(.*)` runs to the next newline or the end |
| MwlConverter.Search | tools/mwl_converter.py:195 | `re.search` finds the first position where the pattern matches, or none |
| MwlConverter.StripLeading | tools/mwl_converter.py:197 | a suffix of the text whose removed head is all whitespace and that does not start with whitespace |
| MwlConverter.StripTrailing | tools/mwl_converter.py:197 | a prefix of the text whose removed tail is all whitespace and that does not end with whitespace |
| MwlConverter.SkipSpacesAt | tools/mwl_converter.py:195 | the whitespace skip stops exactly at the first non-space character |
| MwlConverter.LineEndAt | tools/mwl_converter.py:195 | the capture ends exactly at the first newline |
| MwlConverter.MatchAtPattern | tools/mwl_converter.py:195 | the pattern matches at a position iff the label, optional whitespace and a colon are there; the capture starts after the whitespace that follows |
| MwlConverter.ExtractNoMatch | tools/mwl_converter.py:195-198 | no match gives `""` |
| MwlConverter.ExtractFirstMatch | tools/mwl_converter.py:195-197 | on a match the value is the first match's capture, stripped |
| MwlConverter.StripStripped | tools/mwl_converter.py:197 | `strip()` leaves no whitespace at either end |
| MwlConverter.StripIdentity | tools/mwl_converter.py:197 | `strip()` leaves an already stripped text unchanged |
| MwlConverter.ExtractShape | tools/mwl_converter.py:195-198 | every extracted value is stripped and holds no newline |
| MwlConverter.ExtractAtStart | tools/mwl_converter.py:195-197 | a text starting with `Label : value` followed by a newline extracts that value |
| MwlConverter.ExtractLine | tools/mwl_converter.py:195-197 | `Label: value` on its own line extracts exactly the value |
| MwlConverter.ExtractEmptyReadsNextLine | tools/mwl_converter.py:195-197 | an empty `Label:` line extracts the next line, because the whitespace after the colon includes the newline |
| MwlConverter.WorklistFileFraming | tools/mwl_converter.py:69-78 | both converters frame the body with a 128-zero-byte preamble, explicit VR little endian and the worklist SOP class with the first UID draw; unlike the sender, they copy neither UID into the body (also lines 134-143) |
| MwlConverter.RequestTags | tools/mwl_converter.py:84-116 | the request body has exactly its twelve elements, set whatever the text holds |
| MwlConverter.RequestSequence | tools/mwl_converter.py:101 | the request's SPS sequence is exactly the one built item |
| MwlConverter.RequestPatient | tools/mwl_converter.py:84-87 | the four patient elements take the extracted labels |
| MwlConverter.RequestProcedure | tools/mwl_converter.py:104-116 | RequestedProcedureID and StudyInstanceUID take the third and fourth UID draw; the other five take the extracted labels |
| MwlConverter.RequestStepContents | tools/mwl_converter.py:90-98 | the request's SPS elements are the six extracted fields and the second UID draw as step ID |
| MwlConverter.RequestMissingLabel | tools/mwl_converter.py:84-113 | a label missing from the text still sets its element, to `""` |
| MwlConverter.ConversionUidsDistinct | tools/mwl_converter.py:71-116 | with a fresh generator the meta instance, step, procedure and study UIDs are pairwise distinct |
| MwlConverter.RequestPhysicianDropped | tools/mwl_converter.py:95 | as written, the request's SPS item has no performing-physician element; the value sits in a plain attribute |
| MwlConverter.CorrectedRequestPhysician | tools/mwl_converter.py:95 | with the dictionary keyword, the SPS item carries the extracted physician as an element, and nothing else in the file changes |
| MwlConverter.RequestBodyStep | tools/mwl_converter.py:101 | the request body depends on its SPS item only through the sequence element |
| MwlConverter.ResponseConstants | tools/mwl_converter.py:149-154 | the response writes its fixed patient constants exactly |
| MwlConverter.ResponseTags | tools/mwl_converter.py:149-179 | the response body has exactly its twelve elements |
| MwlConverter.ResponseSequence | tools/mwl_converter.py:168 | the response's SPS sequence is exactly the one built item |
| MwlConverter.ResponseRequest | tools/mwl_converter.py:171-179 | the fixed procedure, accession and referring constants, and the third and fourth UID draw |
| MwlConverter.ResponseStepContents | tools/mwl_converter.py:157-165 | the fixed SPS constants; AE title equals StationName `OUMQHUS06`; the step description equals the requested one, `Cardiac Echo` |
| MwlConverter.ResponsePhysicianDropped | tools/mwl_converter.py:162 | as written, the response's SPS item has no performing-physician element |
| MwlConverter.CorrectedResponsePhysician | tools/mwl_converter.py:162 | with the dictionary keyword, the response's SPS item carries `REFERRAL` as an element, and nothing else in the body changes |
| DicomTools.Run | dicom_tools.py:247-310 | the exit code is 1 exactly when an echo was asked for and `c_echo` raised; a nonzero echo status still exits 0; nothing is sent without the echo flag |
| WorklistCli.CreateRequestDefaults | worklist_cli.py:85-111 | the date defaults to tomorrow and the time to now; a None optional is passed as `""`, so its element is present iff it was given |
| WorklistCli.CreateSucceedsIff | worklist_cli.py:115-129 | the create command succeeds iff the upload reply is HTTP 200 with a body that has no `error` key |
| WorklistCli.CreateWorklistCommand | worklist_cli.py:82-129 | it builds the item from the filled-in arguments, and returns false iff the upload result contains `error` |
| WorklistCli.ListWorklistsCommand | worklist_cli.py:131-169 | it returns false only for an error dict; an empty list is still true |
| WorklistCli.GetSucceedsIff | worklist_cli.py:175-194 | the get command succeeds iff the fetch reply is HTTP 200 with a body that has no `error` key |
| WorklistCli.GetWorklistCommand | worklist_cli.py:171-194 | it returns false iff the details are an error dict |
| WorklistCli.BatchDefaults | worklist_cli.py:217-231 | a missing key takes its default: modality `US`, description `Ultrasound`, station `STATION1`, all others `""` |
| WorklistCli.Successes | worklist_cli.py:212-246 | the success count is at most the number of object entries |
| WorklistCli.Objects | worklist_cli.py:212-249 | the number of attempted entries is at most the number of entries |
| WorklistCli.SuccessesAllClean | worklist_cli.py:242-246 | when no upload result has `error`, every object entry counts |
| WorklistCli.BatchCreateCommand | worklist_cli.py:196-252 | input that is not a list returns false with nothing uploaded; otherwise the count is that of clean uploads, at most the number attempted, and it returns true regardless |
| WorklistCli.Run | worklist_cli.py:254-276 | the exit code is 0 iff the chosen handler succeeds; a missing command gives 1 |
| MainImage.PadEven | main.py:59-63 | the padded pixel data has even length, grows by one byte iff it was odd, starts with the original bytes and pads with zero |
| MainImage.PadEvenChangesIffOdd | main.py:59-60 | padding changes the data iff it has odd length |
| MainImage.PadEvenIdempotent | main.py:59-60 | padding twice is padding once |
| MainImage.RgbPaddingIffOddShape | main.py:49-60 | RGB pixel data of the image's shape is padded iff both height and width are odd |
| MainImage.OddProduct | main.py:49-55 | a product is odd iff both factors are |
| MainImage.ImageIdentityGet | main.py:35-45 | patient, study, series and SOP instance UIDs, `OT`, the numbers 1 and the secondary-capture SOP class |
| MainImage.ImagePixelsGet | main.py:46-63 | the nine image-pixel elements and the padded pixel data |
| MainImage.ImagePixelsKeeps | main.py:46-63 | the pixel module leaves every other tag as it was |
| MainImage.ImageDatesGet | main.py:64-67 | study and content date and time from the one clock reading |
| MainImage.ImageDatesKeeps | main.py:64-67 | the date module leaves every other tag as it was |
| MainImage.KeepsAllIdentity | main.py:35-67 | the pixel and date modules leave the nine identification elements as they were |
| MainImage.ImageFraming | main.py:23-33 | a 128-zero-byte preamble, explicit VR little endian, the secondary-capture SOP class, and the first and second UID draws as instance and implementation UIDs |
| MainImage.ImageMetaCopied | main.py:41-45 | the body's SOP class and instance UIDs are those of the meta |
| MainImage.ImagePatient | main.py:35-36 | PatientName and PatientID are the arguments (default `Anonymous` and `123456`) |
| MainImage.ImageStudySeries | main.py:38-39 | StudyInstanceUID and SeriesInstanceUID take the third and fourth UID draw |
| MainImage.ImageNumbering | main.py:42-44 | Modality `OT`, SeriesNumber 1, InstanceNumber 1 |
| MainImage.ImagePixelFormat | main.py:46-53 | SamplesPerPixel 3, PlanarConfiguration 0, `RGB`, BitsAllocated and BitsStored 8, HighBit 7, PixelRepresentation 0 |
| MainImage.ImageShapeAndPixels | main.py:49-63 | Rows and Columns are the image's height and width; PixelData is the padded data |
| MainImage.ImageDateContents | main.py:64-67 | StudyDate and ContentDate are equal, and StudyTime and ContentTime are equal |
| MainImage.ImageTags | main.py:35-67 | a tag is in the body exactly when it is one of the nine identification, ten pixel or four date tags |
| MainImage.ImageUidsDistinct | main.py:25-39 | with a fresh generator the four generated UIDs are distinct |
| MainImage.UploadOverridesGet | main.py:77-92 | Modality `DOC`, the birth date, `Ultrasound`, `Nirab`, the operator and accession; StudyDate and SeriesDate are the exam date (default today), and likewise the times; nothing else changes |
| MainImage.UploadKeepsImage | main.py:76-92 | the upload keeps the preamble, meta, flags and every element it does not override |
| MainImage.OverridesKeepMetaCopied | main.py:77-92 | the overrides keep the body's SOP UIDs equal to the meta's |
| MainImage.UploadMetaCopied | main.py:41-92 | the uploaded file still repeats the meta SOP UIDs in its body |
| MainImage.UploadImageToDicomServer | main.py:72-115 | it requests the secondary-capture context; C-STORE is sent and release called only when the association is established, whatever the store status |

## Left out

- Python's general regular-expression engine. Only the fixed `Label\s*:\s*(.*)` shape is modelled, with `\s` and `strip()` as `str.isspace()`.
- `convert_mwl_samples` and dicom_tools.py's `--convert` branch. They check paths, create directories and call the converters on files, which is filesystem I/O. Their file arguments are left out too: each converter is a function of the text it reads.
- Reading and writing files: `open`, `json.load`, `save_as`, `dcmread`, tempfiles and `os.makedirs`. These are I/O. Reading succeeds or fails as an input (`saveOk`, `Option`), and a `FileDataset` is the record handed to `save_as`, not its byte encoding.
- The pydicom and pynetdicom internals: `AE`, `dimse_timeout`, DIMSE and the transport. These are foreign library code. `Association.Peer` is the oracle that answers them.
- HTTP. `requests` is the `OrthancRest.Orthanc` oracle: a reply is either raised with a message, or a status code, a JSON body and a text.
- `generate_uid` and `datetime.now`. These are nondeterministic, so they are an injected generator and clock readings.
- PIL and numpy image loading (main.py:15-19, 55). This is foreign numeric code. An image is its height, width and the bytes `tobytes()` would give.
- Logging, `print`, `json.dumps`, argparse parsing and `--verbose`. These are presentation only. Parsed arguments are records with argparse's defaults.
- The text branch of `display_worklist`, and the text and JSON printing in worklist_cli.py. These are presentation only.
- DicomUtils.DatasetToDict: keyed by tag rather than by element name. Dictionary names are distinct, so a later element overwriting an earlier one of the same name does not arise. Iteration order of the dict is not modelled.
- DicomUtils.ProjectValue: only strings, numbers, bytes, None and sequences are modelled. The repr of other pydicom value types is not modelled.
- WorklistManager.JsonItem: `str()` of a value is modelled for strings and numbers. The repr of bytes and sequences is not modelled: they show as empty text.
- DataSets: only the data-dictionary tags used by the modelled code are modelled. Element order is not modelled.
- WorklistCli.CreateWorklistCommand: the in-place update of `args.date` and `args.time` is modelled as the filled-in request.
- MainImage.UploadImageToDicomServer: it does not use `studyUdi`, and neither does the source.
- OrthancRest.UploadWorklistToOrthanc: `modality_name` is not used on the upload path, and neither is it in the source. A JSON reply body is a map from string to string, so non-string values are not modelled.
- WorklistManager.JsonEntry: the values of an entry of the sample file are strings. A `null` or a number under a key is not modelled: for example, `{"birth_date": null}` passes `'birth_date' in item_data` and assigns None (tools/worklist_manager.py:216-217).
- WorklistCli.BatchRequest: the values of a batch entry are strings. A `null` or a number reaching pydicom inside the per-item `try` (worklist_cli.py:216-249), and the uncounted skip it can cause, are not modelled.
- OrthancRest.UploadWorklistToOrthanc: it sets `is_little_endian` and `is_implicit_VR` on the caller's dataset object (worklist.py:127-128). The model's DataSet carries no encoding flags, so that change to the caller's object is not modelled; the uploaded file carries them. The datasets the commands upload are built for the call and not used afterwards.
- OrthancRest.UploadWorklistToOrthanc: the temporary file, `save_as`, the read and the unlink (worklist.py:123-136) run outside the `try`. A failure there propagates out of the call instead of becoming an error dict, and that path is not modelled: the model's upload always reaches the POST.
- OrthancRest.RangeQuery: the query sends the step keys as `{"Sequence": [...]}` under `ScheduledProcedureStepSequence` (worklist.py:200-206). `QueryIdentifier` reads that list as the items of a one-item sequence key, so RangeQueryKeys, RangeQuerySelects and RangeQueryAsGetWorklist assume the server reads the wrapper that way. Nothing in the source establishes that reading.
- Exceptions other than those the branches raise or catch, such as the item loop failing inside `batch_create_command`. These are modelled only where the source raises or catches them. A non-object JSON entry stands for the entry that makes `item.get` raise.
- worklist_example.py. It is a demo driver.

## Findings

| source | as written | input that shows it | evidently intended | confidence | as-written member | corrected member |
|---|---|---|---|---|---|---|
| tools/mwl_converter.py:95 (`convert_request_to_dcm`; also dicom_tools.py:101) | the SPS item is given `ScheduledPerformingPhysiciansName`. That is not a data-dictionary keyword, so pydicom stores a plain attribute, and the physician read from the text is never an element of the saved file | any request text with a `Scheduled Performing Physician's Name : X` line: the SPS item carries no (0040,0006) element | store the value under `ScheduledPerformingPhysicianName`, the keyword tools/worklist_manager.py:77 uses | not executed; medium | MwlConverter.RequestPhysicianDropped | MwlConverter.CorrectedRequestPhysician |
| tools/mwl_converter.py:162 (`convert_response_to_dcm`; also dicom_tools.py:168) | the same misspelled keyword for `"REFERRAL"` | any call: the response's SPS item carries no performing-physician element | store `"REFERRAL"` as `ScheduledPerformingPhysicianName` | not executed; medium | MwlConverter.ResponsePhysicianDropped | MwlConverter.CorrectedResponsePhysician |
