# A verified model of the Arduino modular device server core

The modular device server is firmware for Arduino boards. A host talks to
the board over one or more serial streams, and each request is a JSON
array: `[method, argument, ...]`. The first element names a method, either
by its position in the registry or by its name. The server:

- resolves that method;
- answers help requests (`[method, "?"]`, `[method, parameter, "??"]`, the reserved `help` methods);
- checks each argument against the schema of the method's parameter: its type and inclusive range;
- runs the method's callback only when every argument passes.

Every response to an array request echoes the identifier as `id`. It then holds exactly one
`result` or one `error`, and a `null` result is written when nothing else
was. The server also:

- keeps the registry of methods and parameters;
- keeps named fields, which are typed values in saved storage;
- serves its streams round robin;
- writes a sentinel into the EEPROM on its first start.

The Dafny modules follow the source files:

| module | models |
|---|---|
| `Parameter` | `utility/Parameter.cpp`: a parameter schema. The setters are pure transitions on `ParameterState`, and class `Parameter` applies them in place. |
| `Field` | `utility/Field.cpp`: a named value with a range-checked setter. |
| `FirmwareElement` | `utility/FirmwareElement.cpp`: name and firmware-name matching. |
| `Property` | `utility/Property.cpp`: typed values with pre- and post-write hooks, the bulk array write, the string length, and the static two-list registries. |
| `ServerDefinitions` | `utility/ServerDefinitions.h`: the internal and external collections with their offset index spaces, field access by name, and the guarded error and result writers. |
| `Server` | `utility/Server.cpp`: identifier resolution, argument checks, the dispatcher, the reserved callbacks, streams, saved variables and the EEPROM sentinel. |
| `Method` | The record of `utility/Method.h`. |

Five support modules hold shared definitions:

- `Strings`: constant strings compared by address, case-insensitive comparison, `atoi`.
- `Json`: type tags, parsed values and the conversions assumed for ArduinoJson's variants.
- `SavedVariable`: an abstract saved-storage slot.
- `Response`: the response as a sequence of entries, with error and result counts.
- `Wrappers`: `Option`.

Notes on the shape of the model:

- A C++ object whose fields the source updates is a Dafny `class`: `Parameter`, `Field`, `Property`, `Property.Registry`, both `Server`s and `FirmwareElement.Element`.
- The response is the sequence of entries the server writes, one per write of the source.
- A user callback is recorded by its id in `executed`.
- A hook call is recorded as an event in `hookTrace`.
- The dispatcher is specified by the function `Server.Expected` over a value snapshot of the registry (`RegistryView`). The methods that implement it are proved to write what that function says.

## Model

| member | source | states |
|---|---|---|
| Field.SlotAfterSetValue | utility/Field.cpp:67-82 | a long outside the field's inclusive bounds leaves the slot as it was, any other write is the slot's own write; defaults and length never change; an accepted write to a non-empty slot reads back as the value written |
| Field.SlotAfterSetElementValue | utility/Field.cpp:85-100 | the same for one element: out-of-bounds longs change nothing, defaults and length are kept, an accepted write to an index below the length reads back at that index |
| Field.Field.constructor | utility/Field.cpp:13-15 | a default field owns a fresh parameter in its constructed state with the empty name |
| Field.Field.OfLong | utility/Field.cpp:18-24 | the parameter carries the name and the long type, with no range and no array-length range; the slot holds the default as a scalar |
| Field.Field.OfBool | utility/Field.cpp:27-33 | the same for a boolean default and the bool type |
| Field.Field.SetRange | utility/Field.cpp:36-39 | the parameter's schema becomes the old schema with the long range set, and nothing else changes |
| Field.Field.SetValueLong | utility/Field.cpp:67-76 | succeeds exactly when the value is within the inclusive bounds and the slot is not empty; on success the value reads back; a refused value leaves the slot as it was |
| Field.Field.SetValueBool | utility/Field.cpp:79-82 | no range check: succeeds exactly when the slot is not empty, and then the value reads back |
| Field.Field.SetElementValueLong | utility/Field.cpp:85-94 | succeeds exactly when the value is within the bounds and the index is below the slot's length; on success the element reads back |
| Field.Field.SetElementValueBool | utility/Field.cpp:97-100 | succeeds exactly when the index is below the length, and then the element reads back |
| Field.Field.SetDefaultValue | utility/Field.cpp:126-129 | afterwards the field holds its default value |
| Field.RemovedRangeStillChecked | utility/Field.cpp:67-76 | the field's check ignores whether a range is set: after setting and then removing a range, a value above the old maximum is still refused although no range is set |
| Field.WriteThenRestore | utility/Field.cpp:126-129 | a long field written with any value and then reset reads back the default it was constructed with |
| FirmwareElement.Element.constructor | utility/FirmwareElement.cpp:14-18 | both the name and the firmware name are the empty constant string |
| FirmwareElement.Element.SetName | utility/FirmwareElement.cpp:20-23 | the name is replaced and the firmware name kept |
| FirmwareElement.Element.SetFirmwareName | utility/FirmwareElement.cpp:43-46 | the firmware name is replaced and the name kept |
| FirmwareElement.Element.FirmwareNameInArray | utility/FirmwareElement.cpp:69-82 | true exactly when some element of the array, read as a C string, is accepted by the firmware-name comparison; an array holding the text "all" is always accepted |
| FirmwareElement.CompareNameMeaning | utility/FirmwareElement.cpp:25-36 | about `Element.CompareName` and `Element.CompareNameText`, which model these lines: the constant-string overload is pointer identity; the C-string overload holds exactly when both texts lower-case to the same string; every element matches its own name in both overloads; lower-casing a C string never changes whether it matches |
| FirmwareElement.FirmwareWildcard | utility/FirmwareElement.cpp:48-67 | the text "all" is accepted by every element in both overloads; any other C string is accepted exactly when it equals the firmware name, case included, and any other constant string exactly when it is the recorded object |
| FirmwareElement.DefaultElementFirmware | utility/FirmwareElement.cpp:14-18 | a default element accepts exactly the empty string and "all" as firmware names |
| Parameter.ScalarTypeChangesOneTag | utility/Parameter.cpp:43-89 | a scalar type setter changes exactly one tag: the element type of an array, the type of anything else; whether the parameter is an array is kept and every other field is untouched |
| Parameter.ScalarTypeLastWins | utility/Parameter.cpp:43-115 | two scalar type setters in a row leave the state the second one alone would give |
| Parameter.TypeArrayIdempotent | utility/Parameter.cpp:96-103 | declaring an array twice is the same as declaring it once |
| Parameter.TypeArrayCommutesWithScalarType | utility/Parameter.cpp:43-103 | the array setter and a scalar setter commute, and both orders give an array whose elements have that scalar type |
| Parameter.TypeObjectOverridesArray | utility/Parameter.cpp:91-103 | the object setter overrides an array declaration, while the array setter applied after it gives an array of objects |
| Parameter.DoubleRangeEffect | utility/Parameter.cpp:117-131 | a double range stores both bounds and sets the flag, and makes the parameter, or the elements of an array, double; the length range, name and units are untouched |
| Parameter.RangesCommute | utility/Parameter.cpp:117-145 | a double range and an array-length range give the same state in either order: an array of doubles with both ranges set |
| Parameter.ArrayLengthRangeForcesArray | utility/Parameter.cpp:138-145 | an array-length range makes the parameter an array, whose element type is the former type, stores both bounds and sets its flag, and leaves the value range flag alone |
| Parameter.RemoversClearOnlyTheirFlag | utility/Parameter.cpp:133-150 | each remover clears its own flag and changes nothing else |
| Parameter.Parameter.constructor | utility/Parameter.cpp:13-21 | empty name and units, long type and long element type, no value range and no array-length range |
| Parameter.Parameter.Named | utility/Parameter.cpp:23-31 | the same state with the given name |
| Parameter.Parameter.Reset | utility/Server.cpp:115-128 | assigning a freshly constructed named parameter over a slot of the table yields the constructed state with that name |
| Parameter.Parameter.SetName | utility/Parameter.cpp:33-36 | only the name changes |
| Parameter.Parameter.SetUnits | utility/Parameter.cpp:38-41 | only the units change |
| Parameter.Parameter.SetScalarType | utility/Parameter.cpp:43-89 | the shared shape of the scalar setters: the state becomes the scalar-type transition of the old state |
| Parameter.Parameter.SetTypeLong | utility/Parameter.cpp:43-53 | the scalar-type transition with the long type |
| Parameter.Parameter.SetTypeDouble | utility/Parameter.cpp:55-65 | the scalar-type transition with the double type |
| Parameter.Parameter.SetTypeBool | utility/Parameter.cpp:67-77 | the scalar-type transition with the bool type |
| Parameter.Parameter.SetTypeString | utility/Parameter.cpp:79-89 | the scalar-type transition with the string type |
| Parameter.Parameter.SetTypeValue | utility/Parameter.cpp:105-115 | the scalar-type transition with the any-value type |
| Parameter.Parameter.SetTypeObject | utility/Parameter.cpp:91-94 | the type becomes object, whatever it was, and nothing else changes |
| Parameter.Parameter.SetTypeArray | utility/Parameter.cpp:96-103 | a non-array becomes an array of its former type; an array is left alone |
| Parameter.Parameter.SetRange | utility/Parameter.cpp:117-131 | the state becomes the double-range transition of the old state |
| Parameter.Parameter.SetRangeLong | utility/Field.cpp:36-39 | the long bounds are stored and the range flag set; the type is not changed |
| Parameter.Parameter.RemoveRange | utility/Parameter.cpp:133-136 | only the range flag is cleared |
| Parameter.Parameter.SetArrayLengthRange | utility/Parameter.cpp:138-145 | the state becomes the array-length-range transition of the old state |
| Parameter.Parameter.RemoveArrayLengthRange | utility/Parameter.cpp:147-150 | only the array-length flag is cleared |
| Parameter.CompareNameOverloads | utility/Parameter.cpp:152-162 | the constant-string overload is pointer identity; the C-string overload holds exactly when both texts lower-case to the same string |
| Property.LongWriteCondition | utility/Property.cpp:416-440 | a long scalar write is accepted exactly for a long property whose range, when set, holds the value with both ends included; an element write exactly for an array of longs under the same range |
| Property.AcceptedKindIsReadable | utility/Property.cpp:214-311 | whatever type a setter accepts is the type the matching getter reads, for scalars and for elements |
| Property.ConstantStringChar | utility/Property.cpp:286-311 | the characters of a constant string are readable at every index up to and including its length, where the terminating NUL is read, and at no index beyond |
| Property.BulkValues | utility/Property.cpp:606-640 | the converted values of a JSON array, one per element, each the long, double or bool its element reads as, never a string or a character |
| Property.WritePrefix | utility/Property.cpp:606-640 | writing the first k values element by element sets exactly elements 0 to k-1 (those inside the slot) and leaves the rest and the defaults alone |
| Property.FirstRejected | utility/Property.cpp:606-640 | the index of the first value the element check refuses: every earlier value is accepted, and the value there is refused unless it is the end |
| Property.Property.constructor | utility/Property.cpp:164-166 | a fresh parameter in its constructed state, no hook attached and no hook called |
| Property.Property.OfLong | utility/Property.cpp:719-726 | a named long property with no range, holding the default in its slot, with no hooks |
| Property.Property.OfDouble | utility/Property.cpp:728-735 | the same for a double default |
| Property.Property.OfBool | utility/Property.cpp:737-744 | the same for a bool default |
| Property.Property.OfConstantString | utility/Property.cpp:746-754 | a named string property kept as a constant string, whose value and default are that constant string |
| Property.Property.SetUnits | utility/Property.cpp:168-171 | only the parameter's units change |
| Property.Property.SetRangeLong | utility/Property.cpp:173-176 | the parameter's schema gets the long range |
| Property.Property.SetRange | utility/Property.cpp:178-181 | the parameter's schema gets the double range |
| Property.Property.AttachPreSetValueFunctor | utility/Property.cpp:193-196 | only the pre-write hook becomes attached |
| Property.Property.AttachPreSetElementValueFunctor | utility/Property.cpp:198-201 | only the pre-element-write hook becomes attached |
| Property.Property.AttachPostSetValueFunctor | utility/Property.cpp:203-206 | only the post-write hook becomes attached |
| Property.Property.AttachPostSetElementValueFunctor | utility/Property.cpp:208-211 | only the post-element-write hook becomes attached |
| Property.Property.PreSetValueFunctor | utility/Property.cpp:816-822 | the hook is called exactly when attached; nothing else changes |
| Property.Property.PostSetValueFunctor | utility/Property.cpp:832-838 | the same for the post-write hook |
| Property.Property.PreSetElementValueFunctor | utility/Property.cpp:824-830 | the same for the pre-element-write hook, with the index |
| Property.Property.PostSetElementValueFunctor | utility/Property.cpp:840-846 | the same for the post-element-write hook, with the index |
| Property.Property.GetValue | utility/Property.cpp:213-253 | a value is returned only when the declared type is the requested one, and then it is the slot's value |
| Property.Property.GetDefaultValue | utility/Property.cpp:314-354 | the same for the default value |
| Property.Property.GetElementValue | utility/Property.cpp:255-311 | an element only for an array of the requested element type, or a character of a string; a string kept as a constant string reads its characters and then NUL |
| Property.Property.GetDefaultElementValue | utility/Property.cpp:356-412 | the same reading the default |
| Property.Property.GetArrayLength | utility/Property.cpp:683-693 | a constant-string property counts its text and the terminating NUL; any other property has its slot's length |
| Property.Property.SetValue | utility/Property.cpp:496-584 | succeeds exactly when the type matches, a numeric value lies within the range when one is set, and the slot is not empty; a refused value leaves the slot alone; an accepted one reads back; the pre hook then the post hook are called either way |
| Property.Property.SetElementValue | utility/Property.cpp:416-494 | the same for one element, with the index given to both hooks |
| Property.Property.WriteElements | utility/Property.cpp:606-640 | the bulk loop: writes exactly the values before the first refused one; success means all were written and there was at least one; the hook events are those of each call made, the refused one included |
| Property.Property.SetValueArray | utility/Property.cpp:586-662 | a non-array changes nothing and calls no hook; an array of another element type calls the two hooks and writes nothing; an array of longs, doubles or bools writes the leading values, as many as the shorter of the two lengths, until the first refused one, between the two hooks |
| Property.Property.SetValueToDefault | utility/Property.cpp:664-669 | the value becomes the default, between the two hooks |
| Property.Property.SetElementValueToDefault | utility/Property.cpp:671-676 | the element becomes its default, between the two element hooks |
| Property.Property.GetStringLength | utility/Property.cpp:695-716 | equals the string length as written: 0 for a non-string, else the first NUL among all positions but the last, else the full array length |
| Property.Property.StringChars | utility/Property.cpp:286-311 | the characters the property reads at each index below its array length |
| Property.FirstNul | utility/Property.cpp:703-713 | the index of the first NUL within the bound, with no NUL before it, or the length when there is none |
| Property.StringLength | utility/Property.cpp:695-716 | the corrected length: no NUL before it, and a NUL at it unless it is the whole length |
| Property.AsWrittenOvercountsConstantString | utility/Property.cpp:695-716 | for a constant string without inner NUL, as written the length is one more than the text, while the corrected length is the text's length |
| Property.StringLengthOfConstantString | utility/Property.cpp:695-716 | the corrected length of a NUL-terminated text is the length of the text |
| Property.TwoSpaceFind | utility/Property.cpp:41-64 | the first scalar entry with that name; else the first array entry, offset by the number of scalar entries; -1 exactly when neither list has it |
| Property.AppendedEntryIsFound | utility/Property.cpp:66-86 | an absent name appended to either list is found at the position where it was appended |
| Property.ScalarAppendShiftsArrayIndices | utility/Property.cpp:41-64 | an entry found among the arrays moves up by one index when an unrelated scalar entry is added |
| Property.Registry.constructor | utility/Property.cpp:36-39 | all four registries start empty with their capacities |
| Property.Registry.Parameter | utility/Property.cpp:88-100 | the entry returned has the requested name and is in one of the two parameter lists |
| Property.Registry.Method | utility/Property.cpp:149-161 | the entry returned has the requested name and is in one of the two method lists |
| Property.Registry.CreateParameter | utility/Property.cpp:66-75 | appends an entry with the name and this firmware's name to the scalar parameters, changes no other list, and the name is found at the new position |
| Property.Registry.CreateArrayParameter | utility/Property.cpp:77-86 | the same for the array parameters, found after all scalar parameters |
| Property.Registry.CreateMethod | utility/Property.cpp:127-136 | the same for the scalar methods |
| Property.Registry.CreateArrayMethod | utility/Property.cpp:138-147 | the same for the array methods |
| ServerDefinitions.TwoSpaceIndex | utility/ServerDefinitions.h:311-332 | the first internal match; else the first external match offset by the internal capacity; -1 exactly when neither collection has a match |
| ServerDefinitions.Locate | utility/ServerDefinitions.h:408-426 | reading an index back: negative means nowhere, below the capacity is that internal position, at or above it the external position is the index less the capacity |
| ServerDefinitions.LocateFindsTheMatch | utility/ServerDefinitions.h:385-426 | reading back the index of a lookup lands on an element that matches; a miss means no external element matches |
| ServerDefinitions.FieldNames | utility/ServerDefinitions.h:385-406 | the names of the fields' parameters, position by position |
| ServerDefinitions.ErrorWrittenOnce | utility/ServerDefinitions.h:262-276 | the first error sent is written and later ones are not: afterwards the error flag is set and the response holds exactly one error |
| ServerDefinitions.ResultWrittenOnce | utility/ServerDefinitions.h:278-309 | a result is written only into a response with neither a result nor an error; afterwards it holds one result, and the flags keep counting their entries |
| ServerDefinitions.ErrorMayFollowResult | utility/ServerDefinitions.h:262-287 | the guards are one-sided: a result followed by an error leaves both in the response |
| ServerDefinitions.FilledFrom | utility/ServerDefinitions.h:120-140 | the buffer after a copy loop started at a given position: positions before it keep their old contents, the rest hold the elements |
| ServerDefinitions.UninitialisedCounterSkipsFirst | utility/ServerDefinitions.h:132 | a copy loop whose counter starts anywhere but 0 does not copy the first element, so the buffer is not the field's contents |
| ServerDefinitions.CounterFromZeroCopiesAll | utility/ServerDefinitions.h:132 | a loop counting from 0 copies every element |
| ServerDefinitions.Server.constructor | utility/ServerDefinitions.h:14-30 | all six collections start empty; their capacities are the constructor's arguments, standing for those the storage setters fix; the response is empty with neither flag set |
| ServerDefinitions.Server.FindMethodIndex | utility/ServerDefinitions.h:311-332 | the two-space lookup over the methods' names: the first internal match, else the first external match offset by the internal capacity, else -1, and -1 exactly when no method matches |
| ServerDefinitions.Server.FindParameterIndex | utility/ServerDefinitions.h:334-355 | the same two-space lookup over the parameters: the first internal match, else the first external match offset by the internal capacity, else -1 exactly when no parameter matches |
| ServerDefinitions.Server.MethodAt | utility/ServerDefinitions.h:363-372 | an index below the internal capacity selects that internal method, any other the external method at the index less the capacity |
| ServerDefinitions.Server.FindMethodParameterIndex | utility/ServerDefinitions.h:357-383 | -1 for a negative method index; otherwise the first parameter of the selected method that matches, or -1 when none does |
| ServerDefinitions.Server.FindFieldIndex | utility/ServerDefinitions.h:385-406 | the two-space lookup over the fields' parameter names: the first internal match, else the first external match offset by the internal capacity, else -1 exactly when no field matches |
| ServerDefinitions.Server.FindField | utility/ServerDefinitions.h:408-426 | returns the lookup's index and the field it denotes, which matches; on a miss the first internal field (or no field when there is none) |
| ServerDefinitions.Server.CreateField | utility/ServerDefinitions.h:45-56 | a fresh field with the name and default, typed long or bool, appended to the external storage, and found by its name at the capacity plus its position |
| ServerDefinitions.Server.CreateInternalField | utility/ServerDefinitions.h:32-43 | a new name appends a fresh field to the internal collection; a known name changes nothing; either way the last internal field is returned |
| ServerDefinitions.Server.SetFieldValue | utility/ServerDefinitions.h:71-81 | the named field takes the write as the field's own setter does; every other field, and every field for an unknown name, is unchanged |
| ServerDefinitions.Server.SetFieldElementValue | utility/ServerDefinitions.h:83-94 | the same for one element |
| ServerDefinitions.Server.GetFieldValue | utility/ServerDefinitions.h:96-106 | the named field's value; nothing for an unknown name |
| ServerDefinitions.Server.GetFieldElementValue | utility/ServerDefinitions.h:142-153 | the named field's element; nothing for an unknown name |
| ServerDefinitions.Server.GetFieldDefaultValue | utility/ServerDefinitions.h:155-165 | the named field's default; nothing for an unknown name |
| ServerDefinitions.Server.GetFieldDefaultElementValue | utility/ServerDefinitions.h:201-212 | the named field's default element; nothing for an unknown name |
| ServerDefinitions.Server.GetFieldValuesFrom | utility/ServerDefinitions.h:120-140 | as written: when the named field has exactly as many elements as the buffer, the buffer from the counter's start on receives the field's elements and the positions before keep their contents; otherwise the buffer is untouched |
| ServerDefinitions.Server.GetFieldValues | utility/ServerDefinitions.h:120-140 | corrected: with the counter from 0 the buffer becomes exactly the field's contents when the lengths agree, and is untouched otherwise |
| ServerDefinitions.Server.GetFieldDefaultValuesFrom | utility/ServerDefinitions.h:179-199 | as written, the same for the defaults |
| ServerDefinitions.Server.GetFieldDefaultValues | utility/ServerDefinitions.h:179-199 | corrected: the buffer becomes exactly the field's defaults when the lengths agree |
| ServerDefinitions.Server.SendErrorResponse | utility/ServerDefinitions.h:262-276 | writes a server error and sets the flag, unless an error was already sent |
| ServerDefinitions.Server.WriteResultToResponse | utility/ServerDefinitions.h:278-287 | writes the result and sets its flag only when neither a result nor an error is in the response |
| Server.Resolve | utility/Server.cpp:348-378 | the method index an identifier selects: "0" is 0, text with a positive `atoi` value is that value, other text is the first method of that name ignoring case; anything outside the registry is -1 |
| Server.NumericIdentifierSelectsPosition | utility/Server.cpp:348-378 | the decimal text of any position in the registry selects exactly that position |
| Server.NameSelectsFirstMatch | utility/Server.cpp:360-363 | text that is neither "0" nor a positive number selects the first case-insensitive name match, and -1 exactly when no name matches |
| Server.HelpSuffixIsHelp | utility/Server.cpp:276-297 | a single trailing "?" or "??" is a method help request, verbose for "??", whatever the method's arity or kind |
| Server.CheckedCallHasMatchingArity | utility/Server.cpp:313-344 | only a method that is not reserved and whose argument count equals its parameter count reaches the argument checks |
| Server.LongCheckIsInclusive | utility/Server.cpp:681-695 | a long argument is rejected exactly when a range is set and the value lies below its minimum or above its maximum, and then only as out of range |
| Server.LongArrayCheck | utility/Server.cpp:725-757 | an array of longs is rejected exactly when a range is set and some element lies outside it |
| Server.FirstRejected | utility/Server.cpp:642-663 | the position of the first argument its parameter rejects: all before it are accepted, the one at it is not |
| Server.LongElementsOutOfRange | utility/Server.cpp:740-756 | reports a failure exactly when some element is outside the bounds, and then the position of the first such element |
| Server.DoubleElementsOutOfRange | utility/Server.cpp:760-778 | the same for an array of doubles |
| Server.MethodIdEntriesListUserMethods | utility/Server.cpp:929-942 | the method ids listing holds a name with a position exactly when the method at that position is not reserved and has that name |
| Server.MethodIdEntriesArePlain | utility/Server.cpp:929-942 | the listing itself contains no result and no error entry |
| Server.ParameterEntries | utility/Server.cpp:944-956 | one description per server parameter, in order |
| Server.HelpReply | utility/Server.cpp:958-1077 | every help reply, whatever the request, answers once: one result or one error |
| Server.HelpNamesMethod | utility/Server.cpp:1013-1028 | help with one argument naming a method, without regard to case, answers with the information of the first method of that name |
| Server.HelpNamesParameter | utility/Server.cpp:1013-1045 | help with one argument naming no method but a server parameter answers with the first parameter of that name |
| Server.HelpUnknownName | utility/Server.cpp:1013-1076 | help with one argument naming neither a method nor a server parameter gives the invalid-params error and no result |
| Server.ReservedReplyAnswersOnce | utility/Server.cpp:923-1087 | every reserved method answers once: device info, method ids, parameters and both helps each write one result or one error |
| Server.AnswerAtMostOnce | utility/Server.cpp:276-344 | once the method resolved, the answer raises each flag exactly when it writes that entry, never both, and a callback runs only when neither was written |
| Server.ExpectedAtMostOnce | utility/Server.cpp:271-346 | the same for the whole request, an unknown method included |
| Server.ArrayRequestAnsweredOnce | utility/Server.cpp:197-269 | with the `null` result added when nothing else was written, every array request's response holds exactly one result or error |
| Server.AddStreamKeepsNoDuplicates | utility/Server.cpp:55-69 | adding a stream keeps the list free of duplicates and contains it afterwards; a known stream changes nothing, a new one is appended |
| Server.NextStream | utility/Server.cpp:902-906 | the next index, wrapping to 0 after the last stream |
| Server.RotateAdvances | utility/Server.cpp:902-906 | up to a full turn, k requests move the index k places, wrapping once |
| Server.EveryStreamServed | utility/Server.cpp:902-906 | every stream is served within as many requests as there are streams, after which the index is back where it started |
| Server.WithSentinel | utility/Server.cpp:896-900 | only the sentinel's slot changes, and it then holds the marker |
| Server.SentinelIdempotent | utility/Server.cpp:896-900 | writing the marker twice is writing it once |
| Server.AllDefaults | utility/Server.cpp:175-181 | every saved variable keeps its name and defaults and holds its defaults |
| Server.WithMethod | utility/Server.cpp:93-106 | a name object already registered is replaced in place by a new method; any other is appended |
| Server.CreateMethodKeepsNamesDistinct | utility/Server.cpp:93-106 | creating a method never registers the same name object twice, and the name is registered afterwards |
| Server.Server.constructor | utility/Server.cpp:13-53 | serves the one stream, not running, EEPROM not yet set up; the five reserved methods in order with their callbacks; the sentinel and serial number saved variables with their defaults and arbitrary stored contents; an empty response and no method selected |
| Server.Server.FindMethodIndex | utility/Server.cpp:360-366 | the first method matching the name, or -1 when none does; the search is assumed to be the one `findParameterIndex` performs, since the single-list `Server::findMethodIndex` called here and `Method::compareName` have no body in the files of this model |
| Server.Server.FindParameterIndex | utility/Server.cpp:461-487 | the first server parameter of that name, or -1 when none has it, for both overloads |
| Server.Server.FindMethodParameterIndex | utility/Server.cpp:489-523 | -1 for a negative method index; otherwise the first parameter of that method with the name, or -1 |
| Server.Server.GetParameterValue | utility/Server.cpp:137-142 | the request element one past the parameter's position in the method |
| Server.Server.ParameterReadsItsArgument | utility/Server.cpp:137-142 | with distinct parameter names, each parameter reads its own argument |
| Server.Server.UnknownParameterReadsMethodIdentifier | utility/Server.cpp:137-142 | a name the method does not have reads element 0, the method identifier |
| Server.Server.CreateMethod | utility/Server.cpp:93-106 | the registry becomes `WithMethod` of the old one, with the new method at the returned position: the old position for a known name, the end otherwise |
| Server.Server.CreateParameter | utility/Server.cpp:115-128 | a new name appends a fresh parameter; a known one resets that parameter in place; either way the result is in its constructed state and all other parameters are unchanged |
| Server.Server.AttachCallback | utility/Method.h:32 | only the callback of that method changes |
| Server.Server.AddParameter | utility/Method.h:33 | only that method's parameter list changes, by one appended parameter |
| Server.Server.AddServerStream | utility/Server.cpp:55-69 | the list becomes `WithStream` of the old one |
| Server.Server.IncrementServerStream | utility/Server.cpp:902-906 | the index becomes the next one, round robin |
| Server.Server.ResetDefaults | utility/Server.cpp:175-181 | every saved variable holds its defaults |
| Server.Server.InitializeEeprom | utility/Server.cpp:896-900 | the sentinel holds the marker and the flag is cleared |
| Server.Server.StartServer | utility/Server.cpp:183-190 | running, with the sentinel written on the first start only |
| Server.Server.StopServer | utility/Server.cpp:192-195 | not running |
| Server.Server.ProcessMethodString | utility/Server.cpp:348-378 | returns the resolved index; always echoes the identifier, as a number for "0" or a positive number and as text otherwise; an index outside the registry also writes a method-not-found error and sets the flag |
| Server.Server.ProcessParameterString | utility/Server.cpp:430-459 | the same resolution among the selected method's parameters, with a parameter-not-found error and no echo |
| Server.Server.CheckParameter | utility/Server.cpp:665-873 | accepts exactly what `Check` accepts; a rejection writes one error naming the parameter and the kind of failure |
| Server.Server.CheckParameters | utility/Server.cpp:642-663 | succeeds exactly when every argument passes, then records the argument count and writes nothing; otherwise writes the single error of the first rejected argument |
| Server.Server.GetMethodIdsCallback | utility/Server.cpp:929-942 | writes the result key and then the name and position of every method that is not reserved, in order |
| Server.Server.GetParametersCallback | utility/Server.cpp:944-956 | writes the result key and then one description per server parameter, in order |
| Server.Server.WriteResultKey | utility/Server.cpp:149-153 | appends the result key and sets the flag |
| Server.Server.ApplyReply | utility/Server.cpp:958-1077 | appends a help reply and raises the flag of its kind |
| Server.Server.RunReserved | utility/Server.cpp:923-1087 | writes exactly the reply of the reserved operation for the request |
| Server.Server.ExecuteMethod | utility/Server.cpp:392-402 | a reserved method writes its reply; a user method writes nothing and its callback is recorded as run |
| Server.Server.ProcessRequestArray | utility/Server.cpp:271-346 | selects the resolved method, echoes the identifier and then writes, flags, runs and counts exactly what `Expected` describes |
| Server.Server.RespondToMethod | utility/Server.cpp:276-344 | for a resolved method, the branch taken writes and runs exactly the `Answer` for the request |
| Server.Server.RespondToParameterHelp | utility/Server.cpp:298-311 | the parameter help branch writes the result key and the description of the parameter resolved among the method's own |
| Server.Server.RespondToCheckedCall | utility/Server.cpp:336-343 | writes exactly the answer `Answer` gives: the error of the first rejected argument, or, when all pass, nothing but the recorded argument count and the callback run |
| Server.CheckedCallAnswer | utility/Server.cpp:336-343 | a checked call has as many arguments as parameters and is not reserved; its answer is the callback alone when no argument is rejected, and otherwise the invalid-params error of the first rejected one |
| Server.Server.AnswerArray | utility/Server.cpp:214-258 | a fresh response holding the echoed identifier, the `Expected` entries and, when neither a result nor an error was written, a `null` result; the flags are exactly those of the answer; the resolved method index is kept, and the argument count is recorded when the arguments were checked |
| Server.Server.HandleRequest | utility/Server.cpp:197-269 | a stopped server or no input changes no part of the request state; an overlong request gives its error and keeps the result flag, while an object request and unparsable text give their error and clear it; none of these changes the method index or the argument count; an array request is answered as `AnswerArray` says, with the resolved index and count; the next stream is served next in every case |
| Method.NewMethod | utility/Method.h:30 | a new method has the name, no parameters and is not reserved |
| Strings.EqualsIgnoreCaseMeansLoweredEqual | utility/FirmwareElement.cpp:25-31 | the case-insensitive comparison holds exactly when both texts lower-case to the same string |
| Strings.LoweredIdempotent | utility/FirmwareElement.cpp:25-29 | lower-casing a text twice gives the same text as lower-casing it once |
| Strings.IndexOfName | utility/Server.cpp:461-473 | the linear search: the first position whose name matches, no match before it, or -1 when none matches |
| Strings.IndexOfOwnName | utility/ServerDefinitions.h:311-332 | with distinct name objects, looking an element up by its own name gives back its position |
| Strings.AtoiInvertsDecimalText | utility/Server.cpp:348-378 | `atoi` reads back every number from its decimal text |
| Json.Truncate | utility/Server.cpp:682 | converting a double to a long rounds toward zero |
| Json.Element | utility/Server.cpp:137-142 | subscripting within the array gives that element |

## Left out

- JSON text: reading the request from the stream, parsing, framing and compact or pretty printing are not modelled. A request arrives as a parsed `Json.JsonVal` array, and the response is a sequence of `Response.Token`.
- The layout of help output (`writeMethodInfoToResponse`, `writeParameterInfoToResponse`, `writeDeviceInfoToResponse`) is not modelled. Each is one token naming the method or parameter it describes.
- Floating point: doubles are modelled as Dafny `real`s, and the text `dtostrf` prints for them is not modelled.
- Integer widths: the 32-bit `long` and `size_t` widths and `atoi` overflow are not modelled; integers are unbounded.
- The numeric text of an argument is modelled as its decimal text. Other spellings that ArduinoJson would accept are not modelled.
- Json.AsLong, Json.AsDouble, Json.AsBool and Json.AsText: ArduinoJson's conversions are not part of this model, and these fix the values it is assumed to give.
  - A number converts to a long by truncation toward zero, and to a double exactly.
  - A boolean converts to 1 or 0.
  - A string, `null`, an array or an object converts to the number 0. The library's parsing of a numeric string is not modelled, so `"15"` given for a long reads as 0.
  - As a boolean, only `true` and a non-zero long read as true. A double always reads as false.
  - As a C string, a string gives its characters and a double the text it was written as. A long gives its decimal text, a boolean its literal and `null` the text `null`. An array or an object gives the empty string.
- The storage setters are not modelled: `setStorage`, `setFieldStorage`, `setParameterStorage` and `setMethodStorage`. In `ServerDefinitions.Server` and `Property.Registry`, the capacity arguments of the constructors stand for the capacities those setters and the `Array` types fix. Both bound their collections, and their create operations require room, as the lines below say. The method, parameter and stream lists of `Server.Server` are unbounded sequences, so their capacity overflow is not modelled.
- `copyMethod` and `copyParameter` are not modelled: they exist only for the fixed-capacity storage.
- The device-description setters are not modelled: `setName`, `setModelNumber`, `setSerialNumber` and `setFirmwareVersion`. Neither are the contents of the device info they feed.
- Parameter subsets are not modelled: `setSubset`, `addValueToSubset` and `findSubsetValueIndex`.
- Fields with an array default (the array constructors of `Field`) are not modelled, nor is the array overload of `createField`.
- The array getters of `ServerDefinitions` are modelled as reading the found field directly; the source looks the field up a second time.
- utility/Method.cpp is not part of this model. The method record is modelled from its declaration. `parameter_count_` is assumed to equal the number of parameters added (`Method.Method.ParameterCount`). Method-name matching (`Method::compareName`, and the `findMethodIndex` that uses it) is assumed to work like `Parameter::compareName`: by pointer identity for a constant string and case-insensitively for request text.
- The SavedVariable and Constants libraries are not part of this model. The behaviour of a saved slot is stated as its own contract in `SavedVariable`, and `createSavedVariable` is taken to append a slot.
- The EEPROM contents at power-on are arbitrary. The stored values of the sentinel and of the serial number are left unconstrained by the constructor; only their names, defaults and lengths are fixed. The flag saying the EEPROM still needs initialising is kept in RAM, as in the source, so it starts set at every power-on.
- User callbacks are recorded by id in `executed`. What a user callback itself writes to the response is not modelled.
- `Parameter::compareName` compares names through a buffer of `STRING_LENGTH_PARAMETER_NAME` characters. That truncation is not modelled: names are compared in full.
- Property.Property: the `parameter_` of a property is assumed to behave like the `Parameter` of utility/Parameter.cpp. The Parameter class that utility/Property.cpp builds on is not part of this model. Property.Property.SetRangeLong therefore inherits the assumption about Parameter.Parameter.SetRangeLong stated below.
- Parameter.ParameterState: the source overlays the `long` and `double` halves of `min_` and `max_` in a union. The model keeps them as separate fields, so it does not capture reading one half after writing the other.
- Parameter.Parameter.SetRangeLong: the body of the `long` overload of `Parameter::setRange` is absent. The model assumes it stores the long bounds and sets the range flag without changing the type, whereas the `double` overload sets the type to double.
- Server.Server.ProcessRequestArray and the methods it calls take a ghost snapshot of the registry as a parameter. This keeps each proof small. The snapshot must equal the server's own view; RespondToCheckedCall needs only the called method's entry to agree. So it adds no freedom.
- Server.Server.RespondToMethod, RespondToParameterHelp, RespondToCheckedCall and AnswerArray are parts of `processRequestArray` and `handleRequest`, written as separate methods so each proof stays small.
- Property.Registry.CreateParameter, CreateArrayParameter, CreateMethod and CreateArrayMethod require a name not yet registered and a list with room left. For a name already registered, the source falls off the end of a function that returns a reference, which is undefined behaviour. On a full list it would hand back the last existing entry.
- ServerDefinitions.Server.CreateField requires a name not yet used by any field and room for one more. For a used name the source falls off the end of a non-void function, which is undefined behaviour.
- Server.Server.HandleRequest and Server.Server.ProcessRequestArray require a dispatchable request: a non-empty array, and in a parameter help request (`[method, parameter, "?"]`) a parameter the method has. The source reads element 0 of the array unchecked. It also dereferences the parameter pointer at the resolved index even when that index is -1 (utility/Server.cpp:303-304), which is undefined behaviour.
- Property.Registry.Parameter requires a registered name: for an unknown name `Property::parameter` (utility/Property.cpp:88-100) falls off the end of a function that returns a reference, which is undefined behaviour.
- Property.Registry.Method requires a registered name: for an unknown name `Property::method` (utility/Property.cpp:149-161) falls off the end in the same way.
- ServerDefinitions.Server.CreateInternalField requires at least one internal field when the name is already in use: the source then returns `internal_fields_.back()` (utility/ServerDefinitions.h:32-43), which is undefined behaviour on an empty array, as happens when the name is found only among the external fields.
- ServerDefinitions.Server.FindMethodParameterIndex requires a non-negative method index to be in range: the source indexes the method array without a check.

One behaviour of the code differs from its own description, and the model follows the code:

- The EEPROM initialisation writes only the sentinel.

## Findings

| source | as written | input that shows it | evidently intended | confidence | as-written member | corrected member |
|---|---|---|---|---|---|---|
| utility/Property.cpp:703-713 | `getStringLength` looks for the terminating NUL only among the first `length - 1` positions, and otherwise returns the full array length | the constant string `"abc"` stored with its NUL in 4 chars: the result is 4, not 3 | the length is the position of the first NUL | not executed | Property.AsWrittenOvercountsConstantString | Property.StringLengthOfConstantString |
| utility/ServerDefinitions.h:132 | `getFieldValue` into an array copies with a loop counter that is never initialised | any start value above 0 for the counter: element 0 of the field is not copied | copy every element, counting from 0 | not executed | ServerDefinitions.UninitialisedCounterSkipsFirst | ServerDefinitions.Server.GetFieldValues |
| utility/ServerDefinitions.h:191 | `getFieldDefaultValue` into an array has the same uninitialised counter | any start value above 0: default element 0 is not copied | copy every default element, counting from 0 | not executed | ServerDefinitions.Server.GetFieldDefaultValuesFrom | ServerDefinitions.Server.GetFieldDefaultValues |
