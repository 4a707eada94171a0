/** The decision logic of `submit_schema` and the notice test of
    `check_for_schema`: which schema file is sent, the preflight checks that
    stop the upload before any network access, and the message returned. */
module Schema {
  import opened Php
  import opened Connection

  const CustomSchemaTail := "/solr-for-wordpress-on-pantheon/schema.xml"
  const UploadPort := 449
  const SchemaContentType := "Content-type:text/xml; charset=utf-8"
  const SuccessPrefix := "Schema Upload Success: "
  const ErrorPrefix := "Schema Upload Error: "
  const MissingSuffix := " does not exist."

  /** The site's own schema under the uploads mount (a failed `realpath(ABSPATH)` contributes ""). */
  function CustomSchemaPath(env: HostEnv): string {
    env.absPath.GetOr("") + "/" + env.fileMount + CustomSchemaTail
  }

  /** The schema bundled with the plugin. */
  function BundledSchemaPath(env: HostEnv): string {
    env.pluginDir + "/schema.xml"
  }

  /** The schema file to send: the custom one when it is a file, else the bundled one. */
  function SchemaFile(env: HostEnv, files: set<string>): string {
    if CustomSchemaPath(env) in files then CustomSchemaPath(env) else BundledSchemaPath(env)
  }

  /** `file_exists($client_cert)`; a failed `realpath` (false) never exists. */
  predicate CertExists(env: HostEnv, files: set<string>) {
    env.clientCert.Some? && env.clientCert.value in files
  }

  /** The PUT request the upload sends. */
  datatype UploadRequest = UploadRequest(
    url: string,
    port: int,
    clientCert: string,
    verifyPeer: bool,
    header: string,
    schemaFile: string
  )

  /** The result of `submit_schema`: the upload it issued, if any, and the message it returns. */
  datatype Submission = Submission(upload: Option<UploadRequest>, message: string)

  function UploadFor(env: HostEnv, schema: string): UploadRequest {
    UploadRequest("https://" + env.indexHost.GetOr("") + ":" + env.indexPort.GetOr("") + "/" + ComputePath(env),
                  UploadPort, env.clientCert.GetOr(""), false, SchemaContentType, schema)
  }

  /** The message for the upload's HTTP status code. */
  function UploadMessage(code: nat): string {
    if code == 200 then SuccessPrefix + NatToString(code) else ErrorPrefix + NatToString(code)
  }

  /** `submit_schema`: the first failing preflight check (a truthy sanity
      message, a missing schema file, a missing certificate) ends it with its
      message and no upload; only when all pass is the schema uploaded, and
      the message reports the status `uploadStatus` the upload answered. */
  function Submit(env: HostEnv, files: set<string>, sanityMessage: string, uploadStatus: nat): (r: Submission)
    ensures r.upload.Some? <==> !Truthy(sanityMessage) && SchemaFile(env, files) in files && CertExists(env, files)
    ensures r.upload.Some? ==> r.upload.value.schemaFile == SchemaFile(env, files) && r.message == UploadMessage(uploadStatus)
    ensures Truthy(sanityMessage) ==> r.message == sanityMessage
    ensures !Truthy(sanityMessage) && SchemaFile(env, files) !in files ==> r.message == SchemaFile(env, files) + MissingSuffix
    ensures !Truthy(sanityMessage) && SchemaFile(env, files) in files && !CertExists(env, files) ==>
      r.message == env.clientCert.GetOr("") + MissingSuffix
  {
    var schema := SchemaFile(env, files);
    if Truthy(sanityMessage) then Submission(None, sanityMessage)
    else if schema !in files then Submission(None, schema + MissingSuffix)
    else if !CertExists(env, files) then Submission(None, env.clientCert.GetOr("") + MissingSuffix)
    else Submission(Some(UploadFor(env, schema)), UploadMessage(uploadStatus))
  }

  /** A custom schema that is present is always the one sent, and it passes the schema check. */
  lemma CustomSchemaPreferred(env: HostEnv, files: set<string>, sanityMessage: string, uploadStatus: nat)
    requires CustomSchemaPath(env) in files && !Truthy(sanityMessage) && CertExists(env, files)
    ensures Submit(env, files, sanityMessage, uploadStatus).upload.Some?
    ensures Submit(env, files, sanityMessage, uploadStatus).upload.value.schemaFile == CustomSchemaPath(env)
  {
  }

  /** The upload goes to port 449 of the index host, with the client
      certificate, without peer verification, as XML. */
  lemma UploadShape(env: HostEnv, files: set<string>, sanityMessage: string, uploadStatus: nat)
    requires Submit(env, files, sanityMessage, uploadStatus).upload.Some?
    ensures var u := Submit(env, files, sanityMessage, uploadStatus).upload.value;
      && u.port == 449 && !u.verifyPeer && u.header == "Content-type:text/xml; charset=utf-8"
      && u.clientCert == env.clientCert.value
      && u.url == "https://" + env.indexHost.GetOr("") + ":" + env.indexPort.GetOr("") + "/" + ComputePath(env)
  {
  }

  /** The `if ( strpos( $message, 'Error' ) )` test: "Error" found at a
      non-zero offset (offset 0 is falsy in PHP). */
  predicate NoticeShown(message: string) {
    match StrPos(message, "Error")
    case None => false
    case Some(k) => k != 0
  }

  /** Status 200 reports success, carries no "Error" and raises no notice;
      any other status reports "Error" at offset 14, followed by the status
      code's digits, and so raises the notice. */
  lemma {:induction false} UploadMessageMeaning(code: nat)
    ensures code == 200 ==> UploadMessage(code) == "Schema Upload Success: 200"
    ensures code == 200 ==> StrPos(UploadMessage(code), "Error") == None && !NoticeShown(UploadMessage(code))
    ensures code != 200 ==> StrPos(UploadMessage(code), "Error") == Some(14) && NoticeShown(UploadMessage(code))
    ensures code != 200 ==> UploadMessage(code)[..|ErrorPrefix|] == ErrorPrefix
    ensures code != 200 ==> var digits := UploadMessage(code)[|ErrorPrefix|..];
      AllDigits(digits) && DigitsValue(digits) == code && (|digits| == 1 || digits[0] != '0')
  {
    var m := UploadMessage(code);
    var digits := NatToString(code);
    if code == 200 {
      assert NatToString(200) == "200" by {
        assert NatToString(2) == "2";
        assert NatToString(20) == NatToString(2) + [DigitChar(0)];
      }
      assert 'E' !in m by {
        assert forall i :: 0 <= i < |digits| ==> IsDigit(digits[i]);
        assert 'E' !in SuccessPrefix;
      }
      NotFoundWithoutFirstChar(m, "Error");
    } else {
      assert m == "Schema Upload " + "Error" + (": " + digits);
      FirstOccurrenceAfter("Schema Upload ", "Error", ": " + digits);
      assert m[|ErrorPrefix|..] == digits;
      NatToStringRoundTrip(code);
    }
  }

  /** The quirk of the offset test: a message that begins with "Error" raises no notice. */
  lemma LeadingErrorHidesNotice(rest: string)
    ensures !NoticeShown("Error" + rest)
  {
    FirstOccurrenceAfter("", "Error", rest);
    assert "" + "Error" + rest == "Error" + rest;
  }
}
