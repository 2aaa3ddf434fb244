/**
 * The label translator of `src/lib/i18n.ts`: three English-to-Hindi tables and
 * four total lookup functions that echo their input for English and fall back
 * to it for Hindi when the table has no entry.
 */
module I18n {

  import opened Wrappers

  /** The two interface languages, `"en"` and `"hi"`. */
  datatype Language = En | Hi

  /** The code a language is stored and compared under. */
  function Code(language: Language): string {
    match language
    case En => "en"
    case Hi => "hi"
  }

  // ---------------------------------------------------------------------------
  // the tables: each maps an English string to its Hindi entry
  // ---------------------------------------------------------------------------

  /** `sectionTitleMap`. */
  function SectionTitleHindi(title: string): (entry: Option<string>)
    ensures entry.Some? ==> entry.value != ""
  {
    match title
    case "Personal Details" => Some("व्यक्तिगत विवरण")
    case "Education" => Some("शैक्षणिक विवरण")
    case "Family Details" => Some("परिवार का विवरण")
    case "Projects & Experience" => Some("प्रोजेक्ट और अनुभव")
    case "Skills & Tools" => Some("कौशल और उपकरण")
    case "Analytics Profile" => Some("एनालिटिक्स प्रोफ़ाइल")
    case "Design Profile" => Some("डिज़ाइन प्रोफ़ाइल")
    case "Skills & Industrial Exposure" => Some("कौशल और औद्योगिक अनुभव")
    case "Site Experience & Projects" => Some("साइट अनुभव और प्रोजेक्ट")
    case "Registration & Qualifications" => Some("रजिस्ट्रेशन और योग्यताएँ")
    case "Clinical Experience" => Some("क्लिनिकल अनुभव")
    case "Nursing Experience" => Some("नर्सिंग अनुभव")
    case "Teaching Profile" => Some("शिक्षण प्रोफ़ाइल")
    case "Academic Profile" => Some("शैक्षणिक प्रोफ़ाइल")
    case "Finance & Accounts Skills" => Some("वित्त और अकाउंट्स कौशल")
    case "Banking Profile" => Some("बैंकिंग प्रोफ़ाइल")
    case "Sales Profile" => Some("सेल्स प्रोफ़ाइल")
    case "Digital Marketing Profile" => Some("डिजिटल मार्केटिंग प्रोफ़ाइल")
    case "Strengths & Activities" => Some("मजबूतियाँ और गतिविधियाँ")
    case "Internship Goals" => Some("इंटर्नशिप लक्ष्य")
    case "Government Exam Details" => Some("सरकारी परीक्षा विवरण")
    case "Trade Education" => Some("ट्रेड शिक्षा")
    case "Work Experience" => Some("कार्य अनुभव")
    case "Wedding & Personal Preferences" => Some("शादी और व्यक्तिगत पसंद")
    case "Wedding & Lifestyle Details" => Some("शादी और जीवनशैली विवरण")
    case "NRI Details" => Some("एनआरआई विवरण")
    case "Values & Lifestyle" => Some("मूल्य और जीवनशैली")
    case "Rental Details" => Some("किराया से जुड़ी जानकारी")
    case "Volunteer Experience" => Some("स्वयंसेवी अनुभव")
    case _ => None
  }

  /** `fieldLabelMap`. */
  function FieldLabelHindi(name: string): (entry: Option<string>)
    ensures entry.Some? ==> entry.value != ""
  {
    match name
    case "Full Name" => Some("पूरा नाम")
    case "Date of Birth" => Some("जन्म तिथि")
    case "Gender" => Some("लिंग")
    case "Email" => Some("ईमेल")
    case "Phone" => Some("फ़ोन")
    case "Current Address" => Some("वर्तमान पता")
    case "Highest Qualification" => Some("उच्चतम योग्यता")
    case "Previous Qualification" => Some("पूर्व योग्यता")
    case "Additional Courses / Certifications" => Some("अतिरिक्त कोर्स / प्रमाणपत्र")
    case "Father's Name & Occupation" => Some("पिता का नाम और व्यवसाय")
    case "Mother's Name & Occupation" => Some("माता का नाम और व्यवसाय")
    case "Siblings" => Some("भाई-बहन")
    case "Family Location" => Some("परिवार का निवास स्थान")
    case "Key Project / Internship 1" => Some("मुख्य प्रोजेक्ट / इंटर्नशिप 1")
    case "Key Project / Internship 2" => Some("मुख्य प्रोजेक्ट / इंटर्नशिप 2")
    case "Technical Skills" => Some("तकनीकी कौशल")
    case "Frontend Skills" => Some("फ्रंटएंड कौशल")
    case "Design Tools" => Some("डिज़ाइन उपकरण")
    case "Portfolio Link" => Some("पोर्टफोलियो लिंक")
    case "Summary" => Some("सारांश")
    case "Short Summary" => Some("संक्षिप्त सारांश")
    case "Portfolio" => Some("पोर्टफोलियो")
    case "Hero Case Study" => Some("मुख्य केस स्टडी")
    case "Industrial Training" => Some("औद्योगिक प्रशिक्षण")
    case "B.Tech Major Project" => Some("बी.टेक मेजर प्रोजेक्ट")
    case "Site / Project 1" => Some("साइट / प्रोजेक्ट 1")
    case "Site / Project 2" => Some("साइट / प्रोजेक्ट 2")
    case "Medical Registration Number" => Some("मेडिकल रजिस्ट्रेशन नंबर")
    case "Degrees" => Some("डिग्रियाँ")
    case "Fellowships / Certifications" => Some("फेलोशिप / प्रमाणपत्र")
    case "Hospital / Role 1" => Some("अस्पताल / भूमिका 1")
    case "Hospital / Role 2" => Some("अस्पताल / भूमिका 2")
    case "Hospital / Clinic Experience" => Some("अस्पताल / क्लिनिक अनुभव")
    case "Key Nursing Skills" => Some("मुख्य नर्सिंग कौशल")
    case "Subjects / Classes" => Some("विषय / कक्षाएँ")
    case "Teaching Experience" => Some("शिक्षण अनुभव")
    case "Co-curricular Activities" => Some("सह-पाठ्यक्रम गतिविधियाँ")
    case "Area of Specialization" => Some("विशेषज्ञता का क्षेत्र")
    case "Publications / Conferences" => Some("प्रकाशन / सम्मेलन")
    case "Tools" => Some("उपकरण")
    case "Work Experience" => Some("कार्य अनुभव")
    case "Bank / Branch Experience" => Some("बैंक / शाखा अनुभव")
    case "Certifications" => Some("प्रमाणपत्र")
    case "Sales Experience" => Some("सेल्स अनुभव")
    case "Key Achievements" => Some("मुख्य उपलब्धियाँ")
    case "Channels" => Some("चैनल")
    case "Key Campaigns" => Some("मुख्य कैंपेन")
    case "Career Objective" => Some("करियर उद्देश्य")
    case "Strengths" => Some("मजबूतियाँ")
    case "College Activities" => Some("कॉलेज गतिविधियाँ")
    case "Objective" => Some("उद्देश्य")
    case "Skills" => Some("कौशल")
    case "Exams Cleared" => Some("उत्तीर्ण परीक्षाएँ")
    case "Category / Caste" => Some("वर्ग / जाति")
    case "Trade Course" => Some("ट्रेड कोर्स")
    case "Experience" => Some("अनुभव")
    case "Height" => Some("कद")
    case "Religion / Caste" => Some("धर्म / जाति")
    case "Current Occupation" => Some("वर्तमान व्यवसाय")
    case "Partner Preferences" => Some("जीवनसाथी की पसंद")
    case "Hobbies" => Some("शौक")
    case "Languages Known" => Some("भाषाएँ")
    case "Values" => Some("मूल्य")
    case "Employment / Study Details" => Some("रोजगार / अध्ययन विवरण")
    case "Expected Duration of Stay" => Some("रुकने की अपेक्षित अवधि")
    case "References" => Some("संदर्भ")
    case "NGO / Initiative" => Some("एनजीओ / पहल")
    case "Availability" => Some("उपलब्धता")
    case "Country of Residence" => Some("निवास देश")
    case "Visa / PR Status" => Some("वीज़ा / पीआर स्थिति")
    case "Job Details Abroad" => Some("विदेश में नौकरी का विवरण")
    case _ => None
  }

  /** `placeholderMap`. */
  function PlaceholderHindi(text: string): (entry: Option<string>)
    ensures entry.Some? ==> entry.value != ""
  {
    match text
    case "Rahul Sharma" => Some("राहुल शर्मा")
    case "15 August 2002" => Some("15 अगस्त 2002")
    case "Male / Female / Other" => Some("पुरुष / महिला / अन्य")
    case "you@example.com" => Some("you@example.com")
    case "House no., Street, City, State, PIN" => Some("मकान नंबर, गली, शहर, राज्य, पिनकोड")
    case "B.Tech in Computer Science, XYZ University, 2024" => Some("बी.टेक कंप्यूटर साइंस, XYZ यूनिवर्सिटी, 2024")
    case "12th, CBSE, 2020 – 85%" => Some("12वीं, CBSE, 2020 – 85%")
    case "Full-Stack Web Development, Coursera, 2023" => Some("फुल-स्टैक वेब डेवलपमेंट, Coursera, 2023")
    case "HTML5, CSS3, Tailwind CSS, JavaScript, TypeScript, React, Next.js" => Some("HTML5, CSS3, Tailwind CSS, JavaScript, TypeScript, React, Next.js")
    case "Figma, Adobe XD, Framer, Canva" => Some("Figma, Adobe XD, Framer, Canva")
    case "https://your-portfolio.com" => Some("https://your-portfolio.com")
    case _ => None
  }

  // ---------------------------------------------------------------------------
  // the language switch (src/components/Navbar.tsx, src/context/LanguageContext.tsx)
  // ---------------------------------------------------------------------------

  /** The language a Google-Translate code selects: Hindi for `"hi"`, English for anything else. */
  function LanguageFromCode(code: string): (language: Language)
    ensures language == Hi <==> code == "hi"
  {
    if code == "hi" then Hi else En
  }

  /** Reading back the code of a language gives that language. */
  lemma LanguageCodeRoundTrip(language: Language)
    ensures LanguageFromCode(Code(language)) == language
  {
  }

  /** `toggleLanguage`: switches to the other language. */
  function Toggle(language: Language): (r: Language)
    ensures r != language
  {
    if language == En then Hi else En
  }

  /** Toggling twice returns to the starting language. */
  lemma ToggleInvolutive(language: Language)
    ensures Toggle(Toggle(language)) == language
  {
  }

  // ---------------------------------------------------------------------------
  // the lookups
  // ---------------------------------------------------------------------------

  /**
   * The shape shared by the three table lookups: outside Hindi the text is
   * returned as is; in Hindi the entry is used when it is present and non-empty
   * (the `entry?.hi` truthiness test), and the text is returned otherwise.
   */
  function Localize(text: string, language: Language, entry: Option<string>): string {
    if language == Hi && entry.Some? && entry.value != "" then entry.value else text
  }

  /** `translateSectionTitle`. */
  function TranslateSectionTitle(title: string, language: Language): (r: string)
    ensures language == En ==> r == title
    ensures language == Hi && SectionTitleHindi(title).Some? ==> r == SectionTitleHindi(title).value
    ensures language == Hi && SectionTitleHindi(title).None? ==> r == title
  {
    Localize(title, language, SectionTitleHindi(title))
  }

  /** `translateFieldLabel`. */
  function TranslateFieldLabel(name: string, language: Language): (r: string)
    ensures language == En ==> r == name
    ensures language == Hi && FieldLabelHindi(name).Some? ==> r == FieldLabelHindi(name).value
    ensures language == Hi && FieldLabelHindi(name).None? ==> r == name
  {
    Localize(name, language, FieldLabelHindi(name))
  }

  /** `translatePlaceholder`. */
  function TranslatePlaceholder(text: string, language: Language): (r: string)
    ensures language == En ==> r == text
    ensures language == Hi && PlaceholderHindi(text).Some? ==> r == PlaceholderHindi(text).value
    ensures language == Hi && PlaceholderHindi(text).None? ==> r == text
  {
    Localize(text, language, PlaceholderHindi(text))
  }

  /** The Hindi name of a use-case identifier, if it is one of the four. */
  function UseCaseHindi(useCase: string): (entry: Option<string>)
    ensures entry.Some? <==> useCase in ["job", "wedding", "education", "personal"]
  {
    if useCase == "job" then Some("नौकरी")
    else if useCase == "wedding" then Some("शादी")
    else if useCase == "education" then Some("इंटर्नशिप / शिक्षा")
    else if useCase == "personal" then Some("अन्य / व्यक्तिगत")
    else None
  }

  /** `translateUseCase`. */
  function TranslateUseCase(useCase: string, language: Language): (r: string)
    ensures language == En ==> r == useCase
    ensures language == Hi && UseCaseHindi(useCase).Some? ==> r == UseCaseHindi(useCase).value
    ensures language == Hi && UseCaseHindi(useCase).None? ==> r == useCase
  {
    Localize(useCase, language, UseCaseHindi(useCase))
  }

  // ---------------------------------------------------------------------------
  // properties
  // ---------------------------------------------------------------------------

  /** No table has an entry for the empty string. */
  lemma NoTitleForEmpty()
    ensures SectionTitleHindi("") == None
  {
  }

  lemma NoLabelForEmpty()
    ensures FieldLabelHindi("") == None
  {
  }

  lemma NoPlaceholderForEmpty()
    ensures PlaceholderHindi("") == None
  {
  }

  /** A translation is empty exactly when its input is: entries are never empty and
      no table has one for the empty string. */
  lemma TranslationEmptyIff(text: string, language: Language)
    ensures TranslateSectionTitle(text, language) == "" <==> text == ""
    ensures TranslateFieldLabel(text, language) == "" <==> text == ""
    ensures TranslatePlaceholder(text, language) == "" <==> text == ""
    ensures TranslateUseCase(text, language) == "" <==> text == ""
  {
    NoTitleForEmpty();
    NoLabelForEmpty();
    NoPlaceholderForEmpty();
  }

  /** The two examples the tables are read by: a label with an entry and one without. */
  lemma FieldLabelExamples()
    ensures TranslateFieldLabel("Full Name", Hi) == "पूरा नाम"
    ensures TranslateFieldLabel("NotInMap", Hi) == "NotInMap"
    ensures TranslateFieldLabel("Full Name", En) == "Full Name"
  {
  }

  /** The four use cases in Hindi. */
  lemma UseCaseNames()
    ensures TranslateUseCase("job", Hi) == "नौकरी"
    ensures TranslateUseCase("wedding", Hi) == "शादी"
    ensures TranslateUseCase("education", Hi) == "इंटर्नशिप / शिक्षा"
    ensures TranslateUseCase("personal", Hi) == "अन्य / व्यक्तिगत"
  {
  }

  /** Placeholders whose entry is the English text itself translate to themselves in
      both languages. */
  lemma SelfTranslatingPlaceholders(text: string, language: Language)
    requires text in ["you@example.com",
                      "HTML5, CSS3, Tailwind CSS, JavaScript, TypeScript, React, Next.js",
                      "Figma, Adobe XD, Framer, Canva",
                      "https://your-portfolio.com"]
    ensures TranslatePlaceholder(text, language) == text
  {
  }
}
