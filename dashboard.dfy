/** The recipe-creation form of the dashboard: its state, the ingredient and
    step editors, the submit gate and the submit handler. The store, the photo
    upload and the clock are inputs: each call's outcome is a parameter. */
module Dashboard {
  import opened FormLists
  import opened UploadPaths
  import opened Recipes
  import opened Auth

  /** A file picked in the photo input; only its name matters here. */
  datatype ImageFile = ImageFile(name: string)

  /** How the upload of the photo ended: with its download URL, or rejected. */
  datatype UploadOutcome = Uploaded(downloadUrl: string) | UploadFailed

  /** How the insertion of the document into the "recipes" collection ended. */
  datatype InsertOutcome = Inserted | InsertFailed

  /** Where the page goes once a recipe is published. */
  const HomeRoute: string := "/"

  class RecipeForm {
    var title: string
    var description: string
    var time: int
    var difficulty: Difficulty
    var imageFile: Option<ImageFile>
    var ingredients: seq<string>
    var currentIngredient: string
    var steps: seq<string>
    var currentStep: string
    var isSubmitting: bool
    /** The navigation scheduled after a successful publish, if any. */
    var redirect: Option<string>

    /** Both lists hold only trimmed, non-blank lines: nothing else can be added. */
    ghost predicate Valid()
      reads this
    {
      AllEntries(ingredients) && AllEntries(steps)
    }

    /** The publish button is enabled only when nothing is being submitted and
        both lists have at least one entry. */
    predicate SubmitEnabled()
      reads this
    {
      !isSubmitting && |ingredients| > 0 && |steps| > 0
    }

    /** The state a freshly mounted form starts in. */
    constructor ()
      ensures Valid()
      ensures title == "" && description == "" && time == 30 && difficulty == Media
      ensures imageFile == None && redirect == None && !isSubmitting
      ensures ingredients == [] && currentIngredient == "" && steps == [] && currentStep == ""
      ensures !SubmitEnabled()
    {
      title, description, time, difficulty := "", "", 30, Media;
      imageFile := None;
      ingredients, currentIngredient := [], "";
      steps, currentStep := [], "";
      isSubmitting := false;
      redirect := None;
    }

    /** The photo input's change handler: the first chosen file replaces the
        current one; choosing nothing keeps the current one. */
    method ChangeImage(files: seq<ImageFile>)
      modifies this`imageFile
      ensures imageFile == if files != [] then Some(files[0]) else old(imageFile)
    {
      if files != [] {
        imageFile := Some(files[0]);
      }
    }

    method AddIngredient()
      requires Valid()
      modifies this`ingredients, this`currentIngredient
      ensures Valid()
      ensures ListEdit(ingredients, currentIngredient) == Add(old(ingredients), old(currentIngredient))
      ensures steps == old(steps) && currentStep == old(currentStep)
    {
      AddKeepsEntries(ingredients, currentIngredient);
      var edit := Add(ingredients, currentIngredient);
      ingredients, currentIngredient := edit.items, edit.input;
    }

    method RemoveIngredient(index: int)
      requires Valid()
      modifies this`ingredients
      ensures Valid()
      ensures 0 <= index < |old(ingredients)| ==>
        ingredients == old(ingredients)[..index] + old(ingredients)[index + 1..]
      ensures !(0 <= index < |old(ingredients)|) ==> ingredients == old(ingredients)
      ensures steps == old(steps) && currentIngredient == old(currentIngredient)
    {
      KeepOthersKeepsEntries(ingredients, index);
      if 0 <= index < |ingredients| {
        KeepOthersInside(ingredients, index);
      } else {
        KeepOthersOutside(ingredients, index);
      }
      ingredients := KeepOthers(ingredients, index);
    }

    method AddStep()
      requires Valid()
      modifies this`steps, this`currentStep
      ensures Valid()
      ensures ListEdit(steps, currentStep) == Add(old(steps), old(currentStep))
      ensures ingredients == old(ingredients) && currentIngredient == old(currentIngredient)
    {
      AddKeepsEntries(steps, currentStep);
      var edit := Add(steps, currentStep);
      steps, currentStep := edit.items, edit.input;
    }

    method RemoveStep(index: int)
      requires Valid()
      modifies this`steps
      ensures Valid()
      ensures 0 <= index < |old(steps)| ==> steps == old(steps)[..index] + old(steps)[index + 1..]
      ensures !(0 <= index < |old(steps)|) ==> steps == old(steps)
      ensures ingredients == old(ingredients) && currentStep == old(currentStep)
    {
      KeepOthersKeepsEntries(steps, index);
      if 0 <= index < |steps| {
        KeepOthersInside(steps, index);
      } else {
        KeepOthersOutside(steps, index);
      }
      steps := KeepOthers(steps, index);
    }

    /** The submit handler. `user` is the signed-in user, if any; `uploadClock`
        and `createdAt` are the two clock readings (for the file name and for the
        record); `upload` and `insert` say how the two store calls end.
        Returns the path the photo was uploaded to (when one was chosen) and the
        record handed to the store (when the handler got that far). */
    method HandleSubmit(user: Option<User>, uploadClock: nat, createdAt: nat,
                        upload: UploadOutcome, insert: InsertOutcome)
      returns (uploadPath: Option<string>, submitted: Option<NewRecipe>)
      requires Valid()
      modifies this`isSubmitting, this`redirect
      ensures Valid()
      // No user: nothing happens at all.
      ensures user == None ==>
        uploadPath == None && submitted == None &&
        isSubmitting == old(isSubmitting) && redirect == old(redirect)
      // A photo is uploaded exactly when one was chosen, under recipes/<clock>_<name>.
      ensures user != None ==>
        uploadPath == if imageFile == None then None else Some(UploadPath(uploadClock, imageFile.value.name))
      // A failed upload stops before the record is built and re-enables the button.
      ensures user != None && imageFile != None && upload == UploadFailed ==>
        submitted == None && !isSubmitting && redirect == old(redirect)
      // Otherwise the record carries the form, the user as owner and the photo URL or "".
      ensures user != None && (imageFile == None || upload != UploadFailed) ==>
        submitted == Some(NewRecipe(title, description, time, difficulty, user.value.uid,
                                    ingredients, steps,
                                    if imageFile == None then "" else upload.downloadUrl,
                                    createdAt))
      // The button stays disabled after a publish and is re-enabled after a failure.
      ensures user != None && (imageFile == None || upload != UploadFailed) ==>
        (isSubmitting <==> insert == Inserted) &&
        redirect == if insert == Inserted then Some(HomeRoute) else old(redirect)
      ensures insert == Inserted && submitted != None ==> !SubmitEnabled()
      // Pressed through the enabled button, the record has an ingredient and a step.
      ensures old(SubmitEnabled()) && submitted != None ==>
        submitted.value.ingredients != [] && submitted.value.steps != []
      ensures submitted != None ==>
        AllEntries(submitted.value.ingredients) && AllEntries(submitted.value.steps)
    {
      uploadPath, submitted := None, None;
      if user == None {
        return;
      }
      isSubmitting := true;
      var imageUrl := "";
      if imageFile != None {
        uploadPath := Some(UploadPath(uploadClock, imageFile.value.name));
        if upload == UploadFailed {
          isSubmitting := false;
          return;
        }
        imageUrl := upload.downloadUrl;
      }
      var record := NewRecipe(title, description, time, difficulty, user.value.uid,
                              ingredients, steps, imageUrl, createdAt);
      submitted := Some(record);
      if insert == Inserted {
        redirect := Some(HomeRoute);
      } else {
        isSubmitting := false;
      }
    }
  }
}
