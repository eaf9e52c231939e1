# salvarDadosPessoais: parameter checks and insert of a professional's personal data

The backend registers each professional account through one Firebase callable,
`salvarDadosPessoais`. When the account is created, the callable receives the
professional's personal data as a request object. It runs five checks. The
properties `nome`, `telefone`, `email`, `endereco1` and `curriculo` must each be a
string of non-zero length, and they are checked in that order. The first check
that fails throws an `HttpsError` with code `invalid-argument` and a message that
names the property. When all five pass, the request object is written unchanged
as a new document of the `profissionais` collection, under an auto-generated id.
The call then returns `{ text: "Profissional inserido!" }`. If the write fails, the
error is caught and the call returns `{ text: "Erro ao inserir profissional" }`.

The model has three modules:

- `Request` (request.dfy): the request object. `Data` is either `Absent`
  (`null`/`undefined`) or an `Object` mapping property names to a `Value`, which
  is either a string or some other JSON value kept by its JSON text.
- `ParameterCheck` (parameter_check.dfy): the five guards as a function
  (`FirstInvalidField`) and the whole check phase (`Guard`) with the exact error
  code and messages. It also has an independent reference definition of "the
  first failing check" (`FirstFailing`) with a lemma connecting the two.
- `Profissionais` (profissionais.dfy): the collection as a class whose `docs` map
  the handler updates, the handler as a method, and the pure function `Call` it is
  proved against. It also covers a series of calls (`Replay`) and the lemmas about
  them.

Reading a property of `null` or `undefined` throws a TypeError in JavaScript. A
call whose `data` is absent therefore fails on its first guard with a TypeError,
not with `invalid-argument`. The model keeps this as the `TypeError` failure. Any
other non-object payload (a number, a string, an array) has none of the five
properties and is rejected at `nome`, like an empty object.

The write outcome is a parameter (`writeOk`). The auto-generated id is the
collection's next unused counter value. `colProfissionais.doc()` draws an id
exactly when the checks have passed, whether or not the write then succeeds.

## Model

| member | source | states |
|---|---|---|
| ParameterCheck.FirstInvalidField | functions/src/index.ts:25-71 | no field is reported exactly when all five of `nome`, `telefone`, `email`, `endereco1`, `curriculo` are non-empty strings; a reported field fails its check and every field checked before it passes |
| ParameterCheck.Guard | functions/src/index.ts:25-71 | an absent request fails with a TypeError; a request passes exactly when it is an object whose five required properties are non-empty strings; every other rejection is an `HttpsError` with code `invalid-argument` and the message of the first failing field in check order |
| ParameterCheck.FirstFailing | functions/src/index.ts:25-71 | reference definition over any check order: none is found exactly when every field is a non-empty string; otherwise the index is in range, its field fails and all earlier fields pass |
| ParameterCheck.CheckOrderRanks | functions/src/index.ts:25-64 | the check order `nome`, `telefone`, `email`, `endereco1`, `curriculo` lists each field at its position in the handler |
| ParameterCheck.GuardsFollowCheckOrder | functions/src/index.ts:25-71 | the chain of five guards reports the same field as the reference definition applied to the check order |
| ParameterCheck.MissingNonStringAndEmptyAlike | functions/src/index.ts:25-71 | a required property set to a non-string or to the empty string gets the same verdict as the property missing, and that verdict is a rejection |
| ParameterCheck.MessageIdentifiesField | functions/src/index.ts:26-70 | two failing fields with equal error messages are the same field, so the message tells which check failed |
| Profissionais.Call | functions/src/index.ts:21-81 | only the checks throw; a rejected call throws what the checks report and leaves the collection unchanged; an accepted call returns the success text if the write succeeds and the failure text otherwise; the collection changes exactly when the success text is returned, by one new document equal to the request object |
| Profissionais.Collection.constructor | functions/src/index.ts:11 | the collection starts empty and its id counter is above every stored id |
| Profissionais.Collection.NewDoc | functions/src/index.ts:76 | `doc()` returns an id not yet in the collection and advances the counter |
| Profissionais.Collection.Set | functions/src/index.ts:76 | `set(data)` stores the document under the given id when the write succeeds and changes nothing otherwise; it reports which happened |
| Profissionais.SalvarDadosPessoais | functions/src/index.ts:21-81 | the new collection and the outcome are those of `Call` on the old collection with the next unused id; the counter moves only when the checks pass |
| Profissionais.Replay | functions/src/index.ts:76-80 | over a series of calls, every stored id stays below the counter, the counter never decreases, and there is one outcome per call |
| Profissionais.ReplayGrowsByInserted | functions/src/index.ts:76-77 | over any series of calls, the collection grows by exactly the number of calls that returned the success text, and every earlier document is kept unchanged |
| Profissionais.RepeatedCallStoresTwice | functions/src/index.ts:76 | the same accepted request sent twice with successful writes gives two new documents, with equal contents and distinct ids; nothing is deduplicated |

## Left out

- Firebase app and Firestore initialisation (functions/src/index.ts:5-8): process setup with no logic.
- Region selection and the `https.onCall` wrapper (functions/src/index.ts:18-21): deployment and transport. The callable framework reports a thrown TypeError to the client as an `internal` error. That conversion happens outside this file and is not modelled.
- The `functions.logger.error` call (functions/src/index.ts:79): a logging side effect. The returned text is modelled.
- Firestore's random auto-ids, network I/O and durability: the id is a counter and only its freshness is modelled. The write outcome is the `writeOk` parameter.
- Profissionais.Collection.Set: a write that fails after the store has already applied it (for example, a lost acknowledgement) is not modelled. A failed write leaves the collection unchanged.
- `async`/`await`: the handler awaits a single write, so there is no interleaving within a call. Concurrent calls are modelled as a series (`Replay`).
- JavaScript string length counts UTF-16 code units, and Dafny's counts characters. Only "zero or not" is used, and that is the same in both.
- Emergency dispatch, notification fan-out, response recording, availability toggles and evaluations: none of them is in functions/src/index.ts, so they are not part of this model.
