/** What a handler sends back: a status code and a text (`res.send`) or JSON
    (`res.json`) body. */
module Http {
  import opened Js
  import opened Records

  datatype Body =
    | Text(text: string)
    | LoginJson(message: string, patientId: nat)
    | ProfileJson(id: nat, firstName: Option<string>, email: Option<string>)
    | PatientJson(id: nat, firstName: Option<string>)
    | PatientListJson(patients: map<nat, Option<string>>)
    | DoctorListJson(doctors: map<nat, DoctorListing>)

  datatype Response = Response(status: nat, body: Body)

  /** `res.status(status).send(text)`; a plain `res.send(text)` is status 200. */
  function Send(status: nat, text: string): (r: Response) {
    Response(status, Text(text))
  }

  /** The answer of every `catch` branch. */
  const ServerError := Send(500, "Server error")

  /** The text POST /doctors and POST /patients send once a row is inserted,
      naming the id the database generated for it. */
  function CreatedText(entity: string, id: nat): (s: string) {
    entity + " created with ID: " + NatToString(id)
  }

  /** The same text as the handlers build it: `${result.insertId}`, where
      `result` is the `[header, fields]` array a promise query resolves to,
      reads a property arrays do not have and renders `undefined`. */
  function CreatedTextAsWritten(entity: string, id: nat): (s: string) {
    entity + " created with ID: " + "undefined"
  }

  /** As written, the creation text is the same whatever id was generated. */
  lemma CreatedTextAsWrittenIgnoresId(entity: string, a: nat, b: nat)
    ensures CreatedTextAsWritten(entity, a) == CreatedTextAsWritten(entity, b)
  {
  }

  /** For every generated id, the text as written differs from the one that
      names the id: after the prefix it holds a letter where the id's digits go. */
  lemma CreatedTextAsWrittenMissesId(entity: string, id: nat)
    ensures CreatedTextAsWritten(entity, id) != CreatedText(entity, id)
  {
    var prefix := entity + " created with ID: ";
    assert CreatedTextAsWritten(entity, id)[|prefix|] == 'u';
    assert CreatedText(entity, id)[|prefix|] == NatToString(id)[0];
    assert IsDigit(NatToString(id)[0]);
  }

  /** The corrected text carries the generated id: it can be read back from
      what follows the fixed prefix, so distinct rows get distinct texts. */
  lemma CreatedTextNamesRow(entity: string, id: nat)
    ensures |CreatedText(entity, id)| > |entity + " created with ID: "|
    ensures ParseDecimal(CreatedText(entity, id)[|entity + " created with ID: "|..]) == Some(id)
  {
    var prefix := entity + " created with ID: ";
    assert CreatedText(entity, id)[|prefix|..] == NatToString(id);
    ParseNatToString(id);
  }

  lemma CreatedTextInjective(entity: string, a: nat, b: nat)
    ensures CreatedText(entity, a) == CreatedText(entity, b) ==> a == b
  {
    CreatedTextNamesRow(entity, a);
    CreatedTextNamesRow(entity, b);
  }
}
